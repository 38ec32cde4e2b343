/** Samples, the errors the library raises, and Python's numeric conversions. */
module Samples {

  /** One `(prob, label)` tuple of the source; `lbl` is the label (`label` is reserved in Dafny). */
  datatype Sample = Sample(prob: real, lbl: int)

  /** The exceptions the modelled code raises, by kind (message texts are not modelled). */
  datatype CalibError =
    | InvalidScheme           // partition scheme not in {mass, width, count}
    | InvalidParameter        // keyword argument outside the known keys; also the corrected count scheme
                              // rejecting a non-positive `partition_num`, which the library does not check
    | SizeMismatch            // probs and labels differ in length
    | EmptyInput              // probs is empty
    | ProbOutOfBound          // a probability outside [0, 1]
    | MissingParameter(key: string)  // KeyError on the parameter dictionary
    | ZeroDivision            // division by a zero partition size or width
    | NothingToUnpack         // `a, b = zip(*[])` on an empty sample list
    | IndexOutOfRange         // indexing or popping an empty list

  /** A probability lies in the closed unit interval, `0 <= prob <= 1`. */
  predicate InUnitInterval(p: real)
  {
    0.0 <= p <= 1.0
  }

  /** Python's `list(zip(probs, labels))`: pairs up to the shorter length. */
  function Zip(probs: seq<real>, labels: seq<int>): (r: seq<Sample>)
    ensures |r| == if |probs| <= |labels| then |probs| else |labels|
    ensures forall i :: 0 <= i < |r| ==> r[i] == Sample(probs[i], labels[i])
  {
    var n := if |probs| <= |labels| then |probs| else |labels|;
    seq(n, i requires 0 <= i < n => Sample(probs[i], labels[i]))
  }

  /** The probabilities of a sample list, in order (`zip(*samples)`, first half). */
  function Probs(s: seq<Sample>): (r: seq<real>)
    ensures |r| == |s| && forall i :: 0 <= i < |s| ==> r[i] == s[i].prob
  {
    seq(|s|, i requires 0 <= i < |s| => s[i].prob)
  }

  /** The labels of a sample list, in order (`zip(*samples)`, second half). */
  function Labels(s: seq<Sample>): (r: seq<int>)
    ensures |r| == |s| && forall i :: 0 <= i < |s| ==> r[i] == s[i].lbl
  {
    seq(|s|, i requires 0 <= i < |s| => s[i].lbl)
  }

  /** Unzipping and zipping again gives back the sample list. */
  lemma ZipUnzip(s: seq<Sample>)
    ensures Zip(Probs(s), Labels(s)) == s
  {
  }

  /** Python's `int(x)` on a number: truncation toward zero. */
  function Trunc(x: real): (r: int)
    ensures x >= 0.0 ==> r == x.Floor
    ensures -1.0 < x < 1.0 ==> r == 0
  {
    if x >= 0.0 then x.Floor else -((-x).Floor)
  }

  /** For non-negative `i` and positive `k`, `int(i / k)` is the floored integer quotient. */
  lemma {:induction false} TruncOfQuotient(i: int, k: int)
    requires i >= 0 && k > 0
    ensures Trunc((i as real) / (k as real)) == i / k
  {
    var q, r := i / k, i % k;
    assert i == q * k + r && 0 <= r < k;
    var x := (i as real) / (k as real);
    assert x == (q as real) + (r as real) / (k as real);
    assert 0.0 <= (r as real) / (k as real) < 1.0;
    assert (q as real) <= x < (q as real) + 1.0;
  }

  /** Every label is 0 or 1, as binary classification labels are. */
  predicate BinaryLabels(s: seq<Sample>)
  {
    forall i :: 0 <= i < |s| ==> 0 <= s[i].lbl <= 1
  }

  /** Every probability lies in the closed unit interval. */
  predicate ProbsInUnitInterval(s: seq<Sample>)
  {
    forall i :: 0 <= i < |s| ==> InUnitInterval(s[i].prob)
  }

  /** Python's `sum(...)` over the labels of a sample list. */
  function SumLabels(s: seq<Sample>): int
  {
    if s == [] then 0 else SumLabels(s[..|s| - 1]) + s[|s| - 1].lbl
  }

  /** Python's `sum(...)` over the probabilities of a sample list. */
  function SumProbs(s: seq<Sample>): real
  {
    if s == [] then 0.0 else SumProbs(s[..|s| - 1]) + s[|s| - 1].prob
  }

  /** With 0/1 labels, the label sum counts the positives: between 0 and the length. */
  lemma {:induction false} SumLabelsBounds(s: seq<Sample>)
    ensures BinaryLabels(s) ==> 0 <= SumLabels(s) <= |s|
  {
    if s != [] {
      SumLabelsBounds(s[..|s| - 1]);
    }
  }

  /** With probabilities in [0, 1], their sum lies between 0 and the length. */
  lemma {:induction false} SumProbsBounds(s: seq<Sample>)
    ensures ProbsInUnitInterval(s) ==> 0.0 <= SumProbs(s) <= |s| as real
  {
    if s != [] {
      SumProbsBounds(s[..|s| - 1]);
    }
  }
}
