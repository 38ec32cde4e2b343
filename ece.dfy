/**
 * The expected calibration error of metric/ece.py: pair and partition the
 * samples, bucket them by partition id, add up one term per bin and divide by
 * the number of samples. The per-bin term is the library's own,
 * `|positive-label count - mean probability| ** 2`; `WeightedEce` is the usual
 * sample-weighted definition, given as a correction beside it.
 */
module Ece {
  import opened Wrappers
  import opened Samples
  import opened Partition
  import opened Keys
  import opened Bins

  function Abs(x: real): (r: real)
    ensures r >= 0.0 && (r == x || r == -x)
  {
    if x < 0.0 then -x else x
  }

  /** Python's `x ** k` for a natural exponent. */
  function Pow(x: real, k: nat): real
  {
    if k == 0 then 1.0 else x * Pow(x, k - 1)
  }

  /** The square of a non-negative number is non-negative, and zero only when the number is. */
  lemma SquareZeroIff(d: real)
    requires d >= 0.0
    ensures Pow(d, 2) >= 0.0
    ensures Pow(d, 2) == 0.0 <==> d == 0.0
  {
    assert Pow(d, 1) == d;
    if d > 0.0 {
      assert Pow(d, 2) > 0.0 * d;
    }
  }

  /** `abs(sum_clicks - sum_probs) ** 2`: zero exactly when the two agree. */
  function SquaredGap(sumClicks: real, sumProbs: real): (r: real)
    ensures r >= 0.0
    ensures r == 0.0 <==> sumClicks == sumProbs
  {
    SquareZeroIff(Abs(sumClicks - sumProbs));
    Pow(Abs(sumClicks - sumProbs), 2)
  }

  /** One bin's term: the squared gap between its positive-label count and its mean probability. */
  function EceTerm(b: Bin): (r: real)
    requires |b.samples| > 0
    ensures r >= 0.0
    ensures r == 0.0 <==> SumLabels(b.samples) as real == AvgProb(b)
  {
    SquaredGap(SumLabels(b.samples) as real, AvgProb(b))
  }

  /** The sum of the terms of a sequence of bins. */
  function TermSum(bins: seq<Bin>): (r: real)
    requires AllNonEmpty(bins)
    ensures r >= 0.0
  {
    if bins == [] then 0.0 else TermSum(bins[..|bins| - 1]) + EceTerm(bins[|bins| - 1])
  }

  /** The sum over one more bin adds that bin's term. */
  lemma TermSumPrefixStep(bins: seq<Bin>, i: int)
    requires AllNonEmpty(bins) && 0 <= i < |bins|
    ensures TermSum(bins[..i + 1]) == TermSum(bins[..i]) + EceTerm(bins[i])
  {
    assert bins[..i + 1][..i] == bins[..i];
  }

  /** A sum of non-negative terms is zero exactly when every term is. */
  lemma {:induction false} TermSumZeroIff(bins: seq<Bin>)
    requires AllNonEmpty(bins)
    ensures TermSum(bins) == 0.0 <==> forall i :: 0 <= i < |bins| ==> EceTerm(bins[i]) == 0.0
  {
    if bins != [] {
      var n := |bins| - 1;
      TermSumZeroIff(bins[..n]);
      assert forall i :: 0 <= i < n ==> bins[..n][i] == bins[i];
    }
  }

  /** The sum of the bins' terms over the number of samples. */
  function Average(bins: seq<Bin>, n: nat): (r: real)
    requires AllNonEmpty(bins) && n > 0
    ensures r >= 0.0
    ensures r == 0.0 <==> TermSum(bins) == 0.0
  {
    RealDivMonotone(0.0, TermSum(bins), n as real);
    DivZeroIff(TermSum(bins), n as real);
    TermSum(bins) / (n as real)
  }

  /** The metric of one partition: its bins in ascending id order, averaged over the samples. */
  ghost function EceOf(p: Partitioned): (r: real)
    requires |p.probs| == |p.labels| == |p.ids| > 0
    ensures r >= 0.0
  {
    Average(BinsOf(Zip(p.probs, p.labels), p.ids), |p.probs|)
  }

  /**
   * `ece(probs, labels, scheme, **kwargs)` as intended, as a specification: the
   * scheme's parameter is read from the keyword arguments, the bins are the
   * partition's ids in ascending order, and the sum of their terms is divided by
   * the number of samples.
   */
  ghost function EceSpec(probs: seq<real>, labels: seq<int>, scheme: string, kwargs: map<string, real>): (r: Result<real, CalibError>)
    ensures r.Failure? <==> PartitionBy(scheme, kwargs, Zip(probs, labels)).Failure?
    ensures r.Success? ==> r.value >= 0.0
  {
    match PartitionBy(scheme, kwargs, Zip(probs, labels))
    case Failure(e) => Failure(e)
    case Success(p) => Success(EceOf(p))
  }

  /**
   * The metric is zero exactly when, in every bin, the positive-label count
   * equals the mean probability.
   */
  lemma EceZeroIff(p: Partitioned)
    requires |p.probs| == |p.labels| == |p.ids| > 0
    ensures var bins := BinsOf(Zip(p.probs, p.labels), p.ids);
      EceOf(p) == 0.0 <==> forall i :: 0 <= i < |bins| ==> SumLabels(bins[i].samples) as real == AvgProb(bins[i])
  {
    TermSumZeroIff(BinsOf(Zip(p.probs, p.labels), p.ids));
  }

  lemma DivZeroIff(x: real, n: real)
    requires n > 0.0
    ensures x / n == 0.0 <==> x == 0.0
  {
    assert (x / n) * n == x;
  }

  /**
   * The metric's loops: bucket the partitioned samples into a new dictionary,
   * add up the bins' terms and divide by the number of samples.
   */
  method ComputeEce(probs: seq<real>, labels: seq<int>, scheme: string, kwargs: map<string, real>)
    returns (r: Result<real, CalibError>)
    ensures r == EceSpec(probs, labels, scheme, kwargs)
    ensures r.Success? ==> r.value >= 0.0
  {
    var z := Zip(probs, labels);
    var samples := new Sample[|z|](i requires 0 <= i < |z| => z[i]);
    assert samples[..] == z;
    var p := PartitionInPlace(scheme, kwargs, samples);
    if p.Failure? {
      return Failure(p.error);
    }
    var sorted := Zip(p.value.probs, p.value.labels);
    var bins := Bucket(map[], sorted, p.value.ids);
    assert bins == BinsMap(sorted, p.value.ids);
    var ece := AddTerms(bins);
    assert ece == TermSum(BinsOf(sorted, p.value.ids));
    return Success(ece / (|p.value.probs| as real));
  }

  /** The loop over the bins in ascending id order, adding each bin's term. */
  method AddTerms(bins: map<int, Bin>) returns (ece: real)
    requires NonEmptyBins(bins)
    ensures ece == TermSum(OrderedBins(bins))
  {
    var keys := SortedKeys(bins.Keys);
    ghost var ordered := OrderedBins(bins);
    OrderedBinsAt(bins, keys);
    ece := 0.0;
    assert ordered[..0] == [];
    for i := 0 to |keys|
      invariant ece == TermSum(ordered[..i])
    {
      TermSumPrefixStep(ordered, i);
      var b := bins[keys[i]];
      var sumClicks := SumLabels(b.samples) as real;
      var sumProbs := AvgProb(b);
      ece := ece + SquaredGap(sumClicks, sumProbs);
    }
    assert ordered[..|keys|] == ordered;
  }

  // ---------------------------------------------------------------------------
  // Correction: the sample-weighted expected calibration error

  /** Mean label minus mean probability: the gap a bin's term should measure. */
  function Gap(b: Bin): (r: real)
    requires |b.samples| > 0
    ensures r == 0.0 <==> CalibratedScore(b) == AvgProb(b)
  {
    CalibratedScore(b) - AvgProb(b)
  }

  /** `sum over bins of (size / n) * |mean label - mean probability|`. */
  function WeightedEce(bins: seq<Bin>, n: nat): (r: real)
    requires AllNonEmpty(bins) && n > 0
    ensures r >= 0.0
  {
    if bins == [] then 0.0
    else
      var b := bins[|bins| - 1];
      WeightedEce(bins[..|bins| - 1], n) + (|b.samples| as real) / (n as real) * Abs(Gap(b))
  }

  /** The weighted metric vanishes exactly when every bin's mean label equals its mean probability. */
  lemma {:induction false} WeightedEceZeroIff(bins: seq<Bin>, n: nat)
    requires AllNonEmpty(bins) && n > 0
    ensures WeightedEce(bins, n) == 0.0 <==> forall i :: 0 <= i < |bins| ==> CalibratedScore(bins[i]) == AvgProb(bins[i])
  {
    if bins != [] {
      var k := |bins| - 1;
      var b := bins[k];
      WeightedEceZeroIff(bins[..k], n);
      assert forall i :: 0 <= i < k ==> bins[..k][i] == bins[i];
      var w := (|b.samples| as real) / (n as real);
      assert w > 0.0;
      if Abs(Gap(b)) != 0.0 {
        assert w * Abs(Gap(b)) > 0.0;
      }
    }
  }

  /**
   * One bin of two samples at probability 1/2, one positive: perfectly
   * calibrated, yet its library term is 1/4 while its weighted term is 0.
   */
  lemma TermMixesCountAndRate()
    ensures var b := Bin(0, [Sample(0.5, 1), Sample(0.5, 0)]);
      EceTerm(b) == 0.25 && WeightedEce([b], 2) == 0.0
  {
    var b := Bin(0, [Sample(0.5, 1), Sample(0.5, 0)]);
    assert b.samples[..1] == [Sample(0.5, 1)];
    assert SumLabels(b.samples) == 1;
    assert SumProbs(b.samples) == 1.0;
    assert AvgProb(b) == 0.5 && CalibratedScore(b) == 0.5;
    assert Pow(0.5, 1) == 0.5;
    assert [b][..0] == [];
    assert Gap(b) == 0.0;
    assert WeightedEce([b], 2) == WeightedEce([], 2) + 1.0 * Abs(Gap(b));
  }
}
