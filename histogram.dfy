/**
 * The parts of model/histogram_binning.py that are complete: the `bin` container,
 * which validates each sample it takes, and the histogram-binning calibrator's
 * construction and the sort that starts its `fit`.
 */
module Histogram {
  import opened Wrappers
  import opened Samples
  import opened ProbSort

  /** The `bin` class: an id and the samples added so far, oldest first. */
  class Bin {
    const binId: int
    var samples: seq<Sample>

    /** Every probability the bin holds lies in [0, 1]. */
    ghost predicate Valid()
      reads this
    {
      forall i :: 0 <= i < |samples| ==> InUnitInterval(samples[i].prob)
    }

    /** A new bin has the given id and no samples. */
    constructor(id: int)
      ensures binId == id && samples == []
      ensures Valid()
    {
      binId := id;
      samples := [];
    }

    /**
     * `check_values`: a probability outside [0, 1] is rejected; the type checks on
     * both values are Dafny's typing.
     */
    static function CheckValues(prob: real, lbl: int): (r: Outcome<CalibError>)
      ensures r == Pass <==> InUnitInterval(prob)
      ensures r.Fail? ==> r.error == ProbOutOfBound
    {
      if !(0.0 <= prob <= 1.0) then Fail(ProbOutOfBound) else Pass
    }

    /**
     * `add_sample`: check the values, then append the sample at the end. A
     * rejected sample leaves the bin unchanged, so every probability in a bin
     * stays within [0, 1].
     */
    method AddSample(prob: real, lbl: int) returns (r: Outcome<CalibError>)
      modifies this
      ensures r == CheckValues(prob, lbl)
      ensures r == Pass ==> samples == old(samples) + [Sample(prob, lbl)]
      ensures r.Fail? ==> samples == old(samples)
      ensures old(Valid()) ==> Valid()
    {
      r := CheckValues(prob, lbl);
      if r.Fail? {
        return;
      }
      samples := samples + [Sample(prob, lbl)];
    }
  }

  /** The histogram-binning calibrator: the inputs, the scheme name and the paired samples. */
  class HistogramBinningCalibrator {
    const probs: seq<real>
    const labels: seq<int>
    const partitionScheme: string
    const samples: seq<Sample>

    /** `check_values`: the two lists must have the same length. */
    static function CheckValues(probs: seq<real>, labels: seq<int>): (r: Outcome<CalibError>)
      ensures r == Pass <==> |probs| == |labels|
      ensures r.Fail? ==> r.error == SizeMismatch
    {
      if |probs| != |labels| then Fail(SizeMismatch) else Pass
    }

    /** `__init__` once the lengths agree: the i-th sample pairs the i-th probability and label. */
    constructor(probs: seq<real>, labels: seq<int>, scheme: string)
      requires |probs| == |labels|
      ensures this.probs == probs && this.labels == labels && partitionScheme == scheme
      ensures |samples| == |probs|
      ensures forall i :: 0 <= i < |probs| ==> samples[i] == Sample(probs[i], labels[i])
    {
      this.probs := probs;
      this.labels := labels;
      partitionScheme := scheme;
      samples := Zip(probs, labels);
    }

    /** `__init__`: raise on a length mismatch, otherwise pair the samples. */
    static method Create(probs: seq<real>, labels: seq<int>, scheme: string)
      returns (r: Result<HistogramBinningCalibrator, CalibError>)
      ensures r.Failure? <==> |probs| != |labels|
      ensures r.Failure? ==> r.error == SizeMismatch
      ensures r.Success? ==> fresh(r.value) && r.value.partitionScheme == scheme
      ensures r.Success? ==> |r.value.samples| == |probs|
      ensures r.Success? ==> forall i :: 0 <= i < |probs| ==> r.value.samples[i] == Sample(probs[i], labels[i])
    {
      var check := CheckValues(probs, labels);
      if check.Fail? {
        return Failure(check.error);
      }
      var c := new HistogramBinningCalibrator(probs, labels, scheme);
      return Success(c);
    }

    /**
     * The sort at the start of `fit`: a new list, the samples in ascending order
     * of probability, ties in their original order; the calibrator's own list is
     * not touched.
     */
    function SortedSamples(): (r: seq<Sample>)
      ensures |r| == |samples|
      ensures SortedByProb(r, false)
      ensures multiset(r) == multiset(samples)
      ensures forall p: real :: WithProb(r, p) == WithProb(samples, p)
    {
      SortIsSorted(samples, false);
      SortPermutes(samples, false);
      assert forall p: real :: WithProb(SortByProb(samples, false), p) == WithProb(samples, p) by {
        forall p: real ensures WithProb(SortByProb(samples, false), p) == WithProb(samples, p) {
          SortIsStable(samples, false, p);
        }
      }
      SortByProb(samples, false)
    }
  }
}
