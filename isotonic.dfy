/**
 * The isotonic regression calibrator of model/isotonic_regression_calibrator.py:
 * input validation, `fit` (partition, one bin per partition id, pool adjacent
 * violators, lookup table) and prediction through the lookup table.
 */
module Isotonic {
  import opened Wrappers
  import opened Samples
  import opened Lookup
  import opened ProbSort
  import opened Partition
  import opened Keys
  import opened Bins
  import opened Smoothing

  /** The partition schemes a calibrator accepts. */
  const Schemes: set<string> := {"mass", "width", "count"}

  /** The keyword arguments a calibrator accepts. */
  const ParamNames: set<string> := {"partition_size", "width", "partition_num"}

  /**
   * `check_errors`, as a specification: the first failing check in source order
   * (scheme, keyword names, lengths, emptiness, probability range). Labels are
   * only type-checked by the source, so their values never matter here.
   */
  function Validate(probs: seq<real>, labels: seq<int>, scheme: string, kwargs: map<string, real>): (r: Outcome<CalibError>)
    ensures r == Pass <==>
      && scheme in Schemes
      && kwargs.Keys <= ParamNames
      && |probs| == |labels|
      && |probs| > 0
      && forall i :: 0 <= i < |probs| ==> InUnitInterval(probs[i])
    ensures r.Fail? ==> r.error in {InvalidScheme, InvalidParameter, SizeMismatch, EmptyInput, ProbOutOfBound}
    ensures scheme !in Schemes ==> r == Fail(InvalidScheme)
    ensures scheme in Schemes && kwargs.Keys <= ParamNames && |probs| != |labels| ==> r == Fail(SizeMismatch)
  {
    if scheme !in Schemes then Fail(InvalidScheme)
    else if !(kwargs.Keys <= ParamNames) then Fail(InvalidParameter)
    else if |probs| != |labels| then Fail(SizeMismatch)
    else if |probs| == 0 then Fail(EmptyInput)
    else if exists i :: 0 <= i < |probs| && !InUnitInterval(probs[i]) then Fail(ProbOutOfBound)
    else Pass
  }

  /**
   * `predict`'s lookup for one query, as a specification: the score of the bin
   * whose lowest probability is the rightmost one strictly below `x`, the first
   * bin when there is none, and IndexError on an empty table.
   */
  function Calibrate(low: seq<real>, calib: seq<real>, x: real): (r: Result<real, CalibError>)
    requires |low| == |calib|
    ensures r.Failure? <==> calib == []
    ensures r.Success? ==> r.value in calib
  {
    if calib == [] then Failure(IndexOutOfRange)
    else
      var i := Predecessor(x, low);
      Success(calib[if i == -1 then 0 else i])
  }

  /** With ascending scores in the table, a larger query never gets a smaller calibrated probability. */
  lemma CalibrateMonotone(low: seq<real>, calib: seq<real>, x1: real, x2: real)
    requires |low| == |calib| && calib != []
    requires Ascending(calib)
    requires x1 <= x2
    ensures Calibrate(low, calib, x1).value <= Calibrate(low, calib, x2).value
  {
    PredecessorMonotone(x1, x2, low);
  }

  /** A query below every lowest probability gets the first bin's score; one above all of them the last. */
  lemma CalibrateAtEnds(low: seq<real>, calib: seq<real>, x: real)
    requires |low| == |calib| && calib != []
    ensures (forall i :: 0 <= i < |low| ==> x <= low[i]) ==> Calibrate(low, calib, x).value == calib[0]
    ensures low[|low| - 1] < x ==> Calibrate(low, calib, x).value == calib[|calib| - 1]
  {
  }

  /** `predict` over a list of queries, as a specification. */
  function PredictAll(low: seq<real>, calib: seq<real>, xs: seq<real>): (r: Result<seq<real>, CalibError>)
    requires |low| == |calib|
    ensures r.Failure? <==> calib == [] && xs != []
    ensures r.Success? ==> |r.value| == |xs|
    ensures r.Success? ==> forall i :: 0 <= i < |xs| ==> r.value[i] == Calibrate(low, calib, xs[i]).value
  {
    if xs == [] then Success([])
    else if calib == [] then Failure(IndexOutOfRange)
    else Success(seq(|xs|, i requires 0 <= i < |xs| => Calibrate(low, calib, xs[i]).value))
  }

  /** With ascending scores, predictions are monotone in the queries. */
  lemma PredictMonotone(low: seq<real>, calib: seq<real>, xs: seq<real>)
    requires |low| == |calib| && Ascending(calib)
    requires PredictAll(low, calib, xs).Success?
    ensures var out := PredictAll(low, calib, xs).value;
      forall i, j :: 0 <= i < |xs| && 0 <= j < |xs| && xs[i] <= xs[j] ==> out[i] <= out[j]
  {
    var out := PredictAll(low, calib, xs).value;
    forall i, j | 0 <= i < |xs| && 0 <= j < |xs| && xs[i] <= xs[j] ensures out[i] <= out[j] {
      CalibrateMonotone(low, calib, xs[i], xs[j]);
    }
  }

  /**
   * The lookup table a fit on a fresh calibrator builds from one partition: the
   * partition's samples bucketed by id, the bins smoothed in ascending id order.
   */
  ghost function FitTable(p: Partitioned): (r: seq<Bin>)
    requires |p.probs| == |p.labels| == |p.ids|
    ensures AllNonEmpty(r)
  {
    Smooth(BinsOf(Zip(p.probs, p.labels), p.ids))
  }

  /**
   * The point of the calibrator: the scores of the lookup table a fresh fit
   * builds never decrease, whatever the partition parameter.
   */
  lemma FreshFitScoresAscend(scheme: string, params: map<string, real>, s: seq<Sample>)
    requires PartitionBy(scheme, params, s).Success?
    ensures Ascending(Scores(FitTable(PartitionBy(scheme, params, s).value)))
  {
    var p := PartitionBy(scheme, params, s).value;
    SmoothIsMonotone(BinsOf(Zip(p.probs, p.labels), p.ids));
  }

  /**
   * With a positive parameter the ids follow the sorted samples, so the table's
   * lowest probabilities ascend too, and its bins hold exactly the input samples
   * in sorted order.
   */
  lemma FreshFitIsMonotone(scheme: string, params: map<string, real>, s: seq<Sample>)
    requires PartitionBy(scheme, params, s).Success?
    requires params[ParamKey(scheme)] > 0.0
    ensures var table := FitTable(PartitionBy(scheme, params, s).value);
      && Ascending(LowProbs(table))
      && Ascending(Scores(table))
      && Flatten(table) == SortByProb(s, false)
  {
    var p := PartitionBy(scheme, params, s).value;
    var sorted := Zip(p.probs, p.labels);
    PartitionByWellFormed(scheme, params, s);
    FlattenBinsOfSorted(sorted, p.ids);
    var bins := BinsOf(sorted, p.ids);
    SmoothIsMonotone(bins);
    SortIsSorted(s, false);
    LowProbsAscending(Smooth(bins));
  }

  /**
   * The library's default scheme as written: `count` puts every sample in one
   * partition, so a fit builds a single bin holding all the sorted samples and a
   * one-row table (the minimum probability, the mean label), for any
   * `partition_num`.
   */
  lemma AsWrittenCountFitIsOneRow(params: map<string, real>, s: seq<Sample>)
    requires "partition_num" in params && s != []
    ensures PartitionByAsWritten("count", params, s).Success?
    ensures var p := PartitionByAsWritten("count", params, s).value;
      FitTable(p) == [Bin(0, SortByProb(s, false))]
  {
    CountAsWrittenIsOnePartition(params, s);
    var p := PartitionByAsWritten("count", params, s).value;
    BinsOfOneId(Zip(p.probs, p.labels), p.ids);
    var b := Bin(0, SortByProb(s, false));
    assert Smooth([b]) == PushMerge(Smooth([b][..0]), b);
  }

  /** The calibrator: its configuration, its samples, its bins and its lookup table. */
  class IsotonicRegressionCalibrator {
    const partitionScheme: string
    const params: map<string, real>
    const samples: array<Sample>
    var bins: map<int, Bin>
    var lowArray: seq<real>
    var calibArray: seq<real>

    /** Every bin holds a sample, and the two halves of the lookup table have one entry per merged bin. */
    ghost predicate Valid()
      reads this
    {
      NonEmptyBins(bins) && |lowArray| == |calibArray|
    }

    /** `__init__` once `check_errors` has passed: the samples paired up, no bins, an empty table. */
    constructor(probs: seq<real>, labels: seq<int>, scheme: string, kwargs: map<string, real>)
      requires Validate(probs, labels, scheme, kwargs) == Pass
      ensures Valid()
      ensures partitionScheme == scheme && params == kwargs
      ensures fresh(samples) && samples[..] == Zip(probs, labels)
      ensures bins == map[] && lowArray == [] && calibArray == []
    {
      var z := Zip(probs, labels);
      partitionScheme := scheme;
      params := kwargs;
      samples := new Sample[|z|](i requires 0 <= i < |z| => z[i]);
      bins := map[];
      lowArray := [];
      calibArray := [];
    }

    /** `__init__`: validate the arguments, then build the calibrator. */
    static method Create(probs: seq<real>, labels: seq<int>, scheme: string, kwargs: map<string, real>)
      returns (r: Result<IsotonicRegressionCalibrator, CalibError>)
      ensures r.Failure? <==> Validate(probs, labels, scheme, kwargs) != Pass
      ensures r.Failure? ==> r.error == Validate(probs, labels, scheme, kwargs).error
      ensures r.Success? ==> fresh(r.value) && fresh(r.value.samples) && r.value.Valid()
      ensures r.Success? ==> r.value.partitionScheme == scheme && r.value.params == kwargs
      ensures r.Success? ==> r.value.samples[..] == Zip(probs, labels)
      ensures r.Success? ==> r.value.bins == map[] && r.value.lowArray == [] && r.value.calibArray == []
    {
      var check := CheckErrors(probs, labels, scheme, kwargs);
      if check.Fail? {
        return Failure(check.error);
      }
      var c := new IsotonicRegressionCalibrator(probs, labels, scheme, kwargs);
      return Success(c);
    }

    /** `check_errors`: the checks one after the other, each list scanned by a loop. */
    static method CheckErrors(probs: seq<real>, labels: seq<int>, scheme: string, kwargs: map<string, real>)
      returns (r: Outcome<CalibError>)
      ensures r == Validate(probs, labels, scheme, kwargs)
    {
      if scheme !in Schemes {
        return Fail(InvalidScheme);
      }
      var rest := kwargs.Keys;
      while rest != {}
        invariant rest <= kwargs.Keys
        invariant kwargs.Keys - rest <= ParamNames
        decreases |rest|
      {
        var key :| key in rest;
        if key !in ParamNames {
          return Fail(InvalidParameter);
        }
        rest := rest - {key};
      }
      if |probs| != |labels| {
        return Fail(SizeMismatch);
      }
      if |probs| == 0 {
        return Fail(EmptyInput);
      }
      for i := 0 to |probs|
        invariant forall j :: 0 <= j < i ==> InUnitInterval(probs[j])
      {
        if !InUnitInterval(probs[i]) {
          return Fail(ProbOutOfBound);
        }
      }
      return Pass;
    }

    /**
     * `monotonic_smoothing`, with the top of the stack re-read after every pop and
     * the inner loop stopping on an empty stack; the dictionary is visited in
     * ascending id order. The stack it returns has non-decreasing scores and holds
     * the bins' samples, bin after bin.
     */
    static method MonotonicSmoothing(bins: map<int, Bin>) returns (stack: seq<Bin>)
      requires NonEmptyBins(bins)
      ensures stack == Smooth(OrderedBins(bins))
      ensures Ascending(Scores(stack))
      ensures Flatten(stack) == Flatten(OrderedBins(bins))
    {
      var keys := SortedKeys(bins.Keys);
      stack := VisitInOrder(bins, keys);
      SmoothIsMonotone(OrderedBins(bins));
    }

    /** The outer loop of `monotonic_smoothing`, over the bins in the order of `keys`. */
    static method VisitInOrder(bins: map<int, Bin>, keys: seq<int>) returns (stack: seq<Bin>)
      requires NonEmptyBins(bins) && keys == AscendingKeys(bins.Keys)
      ensures stack == Smooth(OrderedBins(bins))
    {
      ghost var ordered := OrderedBins(bins);
      OrderedBinsAt(bins, keys);
      stack := [];
      assert ordered[..0] == [];
      for i := 0 to |keys|
        invariant stack == Smooth(ordered[..i])
      {
        var current := bins[keys[i]];
        assert current == ordered[i] && |current.samples| > 0;
        SmoothPrefixStep(ordered, i);
        if |stack| == 0 {
          assert PushMerge(stack, current) == [current];
          stack := stack + [current];
        } else {
          stack := PushMerging(stack, current);
        }
      }
      assert ordered[..|keys|] == ordered;
    }

    /**
     * One visit of `monotonic_smoothing`'s loop on a non-empty stack: while the
     * bin on top scores above the current bin, merge it into the current bin and
     * pop it; then push the current bin.
     */
    static method PushMerging(stack0: seq<Bin>, current0: Bin) returns (stack: seq<Bin>)
      requires AllNonEmpty(stack0) && |current0.samples| > 0
      ensures stack == PushMerge(stack0, current0)
    {
      stack := stack0;
      var current := current0;
      while |stack| > 0 && CalibratedScore(stack[|stack| - 1]) > CalibratedScore(current)
        invariant AllNonEmpty(stack) && |current.samples| > 0
        invariant PushMerge(stack, current) == PushMerge(stack0, current0)
        decreases |stack|
      {
        current := Merge(current, stack[|stack| - 1]);
        stack := stack[..|stack| - 1];
      }
      stack := stack + [current];
    }

    /**
     * The last loop of `fit`: each merged bin, in stack order, appends its lowest
     * probability and its score to the two halves of the lookup table.
     */
    static method AppendTable(low0: seq<real>, calib0: seq<real>, merged: seq<Bin>) returns (low: seq<real>, calib: seq<real>)
      requires AllNonEmpty(merged)
      ensures low == low0 + LowProbs(merged)
      ensures calib == calib0 + Scores(merged)
    {
      low, calib := low0, calib0;
      for i := 0 to |merged|
        invariant low == low0 + LowProbs(merged[..i])
        invariant calib == calib0 + Scores(merged[..i])
      {
        assert merged[..i + 1] == merged[..i] + [merged[i]];
        low := low + [LowProb(merged[i])];
        calib := calib + [CalibratedScore(merged[i])];
      }
      assert merged[..|merged|] == merged;
    }

    /**
     * `fit`: partition the samples (sorting them in place), add one bin per
     * partition id holding that id's samples, smooth all the bins, and append each
     * merged bin's lowest probability and score to the lookup table. A partition
     * error leaves the bins and the table as they were.
     */
    method Fit() returns (r: Outcome<CalibError>)
      requires Valid()
      modifies this, samples
      ensures Valid()
      ensures samples[..] == if ParamKey(partitionScheme) in params then SortByProb(old(samples[..]), false) else old(samples[..])
      ensures var p := PartitionBy(partitionScheme, params, old(samples[..]));
        && (p.Failure? ==> r == Fail(p.error) && bins == old(bins) && lowArray == old(lowArray) && calibArray == old(calibArray))
        && (p.Success? ==> r == Pass && bins == old(bins) + BinsMap(Zip(p.value.probs, p.value.labels), p.value.ids))
      ensures r == Pass ==> lowArray == old(lowArray) + LowProbs(Smooth(OrderedBins(bins)))
      ensures r == Pass ==> calibArray == old(calibArray) + Scores(Smooth(OrderedBins(bins)))
    {
      var p := PartitionInPlace(partitionScheme, params, samples);
      if p.Failure? {
        return Fail(p.error);
      }
      bins := Bucket(bins, Zip(p.value.probs, p.value.labels), p.value.ids);
      var merged := MonotonicSmoothing(bins);
      lowArray, calibArray := AppendTable(lowArray, calibArray, merged);
      return Pass;
    }

    /**
     * A calibrator created and fitted once, as a caller uses it: a validation
     * error, then a partition error, is reported; otherwise the table `get_model`
     * returns is the fresh fit's, its scores never decrease, and with a positive
     * parameter its lowest probabilities never decrease either.
     */
    static method CreateAndFit(probs: seq<real>, labels: seq<int>, scheme: string, kwargs: map<string, real>)
      returns (r: Result<IsotonicRegressionCalibrator, CalibError>)
      ensures Validate(probs, labels, scheme, kwargs) != Pass ==> r == Failure(Validate(probs, labels, scheme, kwargs).error)
      ensures Validate(probs, labels, scheme, kwargs) == Pass && PartitionBy(scheme, kwargs, Zip(probs, labels)).Failure? ==>
        r == Failure(PartitionBy(scheme, kwargs, Zip(probs, labels)).error)
      ensures r.Success? <==> Validate(probs, labels, scheme, kwargs) == Pass && PartitionBy(scheme, kwargs, Zip(probs, labels)).Success?
      ensures r.Success? ==> r.value.Valid()
      ensures r.Success? ==>
        var table := FitTable(PartitionBy(scheme, kwargs, Zip(probs, labels)).value);
        r.value.lowArray == LowProbs(table) && r.value.calibArray == Scores(table)
      ensures r.Success? ==> Ascending(r.value.calibArray)
      ensures r.Success? && kwargs[ParamKey(scheme)] > 0.0 ==> Ascending(r.value.lowArray)
    {
      var created := Create(probs, labels, scheme, kwargs);
      if created.Failure? {
        return Failure(created.error);
      }
      var c := created.value;
      var fitted := c.FitFresh();
      if fitted.Fail? {
        return Failure(fitted.error);
      }
      return Success(c);
    }

    /**
     * `fit` on a calibrator that has no bins and an empty table yet: a partition
     * error is reported, and otherwise the table is the fresh fit's, its scores
     * never decrease, and with a positive parameter its lowest probabilities
     * never decrease either.
     */
    method FitFresh() returns (r: Outcome<CalibError>)
      requires Valid() && bins == map[] && lowArray == [] && calibArray == []
      modifies this, samples
      ensures Valid()
      ensures var p := PartitionBy(partitionScheme, params, old(samples[..]));
        && (r.Fail? <==> p.Failure?)
        && (p.Failure? ==> r == Fail(p.error))
        && (p.Success? ==> lowArray == LowProbs(FitTable(p.value)) && calibArray == Scores(FitTable(p.value)))
      ensures r == Pass ==> Ascending(calibArray)
      ensures r == Pass && params[ParamKey(partitionScheme)] > 0.0 ==> Ascending(lowArray)
    {
      ghost var s := samples[..];
      r := Fit();
      if r.Fail? {
        return;
      }
      ghost var p := PartitionBy(partitionScheme, params, s).value;
      ghost var bucketed := BinsMap(Zip(p.probs, p.labels), p.ids);
      assert map[] + bucketed == bucketed;
      FreshFitScoresAscend(partitionScheme, params, s);
      if params[ParamKey(partitionScheme)] > 0.0 {
        FreshFitIsMonotone(partitionScheme, params, s);
      }
    }

    /**
     * `find_bin_id` (as an ordinary method): binary search the lowest
     * probabilities, then read the score at that index, or the first score when
     * no lowest probability is below the query.
     */
    method FindBinId(prob: real) returns (r: Result<real, CalibError>)
      requires Valid()
      ensures r.Failure? <==> calibArray == []
      ensures r.Success? ==> r.value in calibArray
      ensures Ascending(lowArray) ==> r == Calibrate(lowArray, calibArray, prob)
    {
      var idx := StrictLowerBound(prob, lowArray);
      if calibArray == [] {
        return Failure(IndexOutOfRange);
      }
      if idx == -1 {
        return Success(calibArray[0]);
      }
      return Success(calibArray[idx]);
    }

    /** `predict`: `find_bin_id` on each query in turn; the first error stops it. */
    method Predict(probs: seq<real>) returns (r: Result<seq<real>, CalibError>)
      requires Valid()
      ensures r.Failure? <==> calibArray == [] && probs != []
      ensures r.Success? ==> |r.value| == |probs|
      ensures r.Success? ==> forall i :: 0 <= i < |probs| ==> r.value[i] in calibArray
      ensures Ascending(lowArray) ==> r == PredictAll(lowArray, calibArray, probs)
    {
      var out: seq<real> := [];
      for i := 0 to |probs|
        invariant |out| == i
        invariant i > 0 ==> calibArray != []
        invariant forall j :: 0 <= j < i ==> out[j] in calibArray
        invariant Ascending(lowArray) ==> forall j :: 0 <= j < i ==> out[j] == Calibrate(lowArray, calibArray, probs[j]).value
      {
        var c := FindBinId(probs[i]);
        if c.Failure? {
          return Failure(c.error);
        }
        out := out + [c.value];
      }
      if Ascending(lowArray) && probs != [] {
        assert out == PredictAll(lowArray, calibArray, probs).value;
      }
      return Success(out);
    }

    /** `get_model`: the two halves of the lookup table, of equal length. */
    function GetModel(): (r: (seq<real>, seq<real>))
      requires Valid()
      reads this
      ensures |r.0| == |r.1|
      ensures r.0 == lowArray && r.1 == calibArray
    {
      (lowArray, calibArray)
    }
  }
}
