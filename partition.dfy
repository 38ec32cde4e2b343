/**
 * The three partition schemes of model/partition.py. Each sorts the caller's
 * sample list in place by probability, unzips it, and gives every sample an
 * integer partition id.
 */
module Partition {
  import opened Wrappers
  import opened Samples
  import opened ProbSort

  /** The `(sorted_probs, sorted_labels, partition_ids)` triple a partitioner returns. */
  datatype Partitioned = Partitioned(probs: seq<real>, labels: seq<int>, ids: seq<int>)

  /** Ids start at 0 and never decrease along the sorted samples. */
  predicate IdsFromZeroNonDecreasing(ids: seq<int>)
  {
    && (|ids| > 0 ==> ids[0] == 0)
    && forall i, j :: 0 <= i <= j < |ids| ==> ids[i] <= ids[j]
  }

  // ---------------------------------------------------------------------------
  // Integer arithmetic used by the id formulas

  lemma MulMonotone(a: int, b: int, k: int)
    requires a <= b && k >= 0
    ensures a * k <= b * k
  {
    assert b * k == a * k + (b - a) * k;
  }

  /** `i / k == c` exactly when `i` lies in `[c * k, c * k + k)`. */
  lemma DivRange(i: int, k: int, c: int)
    requires i >= 0 && k > 0
    ensures i / k == c <==> c * k <= i < c * k + k
  {
    var q := i / k;
    assert i == q * k + i % k && 0 <= i % k < k;
    assert (q + 1) * k == q * k + k;
    assert (c + 1) * k == c * k + k;
    if c < q {
      MulMonotone(c + 1, q, k);
    } else if c > q {
      MulMonotone(q + 1, c, k);
    }
  }

  lemma MulCancel(a: int, b: int, k: int)
    requires k > 0 && a * k < b * k
    ensures a < b
  {
    if a >= b {
      MulMonotone(b, a, k);
    }
  }

  lemma DivMonotone(i: int, j: int, k: int)
    requires 0 <= i <= j && k > 0
    ensures i / k <= j / k
  {
    var c, q := i / k, j / k;
    DivRange(i, k, c);
    DivRange(j, k, q);
    assert c * k < (q + 1) * k;
    MulCancel(c, q + 1, k);
  }

  /** Division by a positive real keeps order. */
  lemma RealDivMonotone(x: real, y: real, w: real)
    requires x <= y && w > 0.0
    ensures x / w <= y / w
  {
    var d := y / w - x / w;
    assert d * w == y - x;
  }

  /** Multiplication by a positive real keeps (strict) order. */
  lemma RealMulMonotone(a: real, b: real, w: real)
    requires w > 0.0
    ensures a <= b ==> a * w <= b * w
    ensures a < b ==> a * w < b * w
  {
    assert b * w - a * w == (b - a) * w;
  }

  /** `multiset(ids)[c]` is the length of the index range that holds `c`. */
  lemma {:induction false} CountOfRange(ids: seq<int>, c: int, lo: int, hi: int)
    requires 0 <= lo <= hi <= |ids|
    requires forall i :: 0 <= i < |ids| ==> (ids[i] == c <==> lo <= i < hi)
    ensures multiset(ids)[c] == hi - lo
  {
    if ids != [] {
      var n := |ids|;
      var front := ids[..n - 1];
      assert ids == front + [ids[n - 1]];
      var lo', hi' := if lo < n - 1 then lo else n - 1, if hi < n - 1 then hi else n - 1;
      CountOfRange(front, c, lo', hi');
    }
  }

  // ---------------------------------------------------------------------------
  // Quotient ids: id(i) = i / k, the shape shared by the mass scheme and the
  // corrected count scheme

  function QuotientIds(n: nat, k: int): (ids: seq<int>)
    requires k > 0
    ensures |ids| == n
  {
    seq(n, i requires 0 <= i < n => i / k)
  }

  /** Quotient ids start at 0, never decrease, and step by at most one (they are contiguous). */
  lemma QuotientIdsContiguous(n: nat, k: int)
    requires k > 0
    ensures IdsFromZeroNonDecreasing(QuotientIds(n, k))
    ensures forall i :: 0 <= i < n - 1 ==> QuotientIds(n, k)[i + 1] - QuotientIds(n, k)[i] in {0, 1}
  {
    var ids := QuotientIds(n, k);
    forall i, j | 0 <= i <= j < n ensures ids[i] <= ids[j] {
      DivMonotone(i, j, k);
    }
    forall i | 0 <= i < n - 1 ensures ids[i + 1] - ids[i] in {0, 1} {
      var q := i / k;
      DivRange(i, k, q);
      DivRange(i + 1, k, q);
      DivRange(i + 1, k, q + 1);
    }
  }

  /**
   * Group sizes: every id below the last one is held by exactly `k` samples,
   * and the last id `(n - 1) / k` by between 1 and `k`.
   */
  lemma QuotientIdsGroupSizes(n: nat, k: int, c: int)
    requires k > 0 && n > 0
    requires 0 <= c <= (n - 1) / k
    ensures c < (n - 1) / k ==> multiset(QuotientIds(n, k))[c] == k
    ensures c == (n - 1) / k ==> 1 <= multiset(QuotientIds(n, k))[c] <= k
  {
    var ids := QuotientIds(n, k);
    var last := (n - 1) / k;
    DivRange(n - 1, k, last);
    MulMonotone(c, last, k);
    assert (c + 1) * k == c * k + k;
    if c < last {
      MulMonotone(c + 1, last, k);
    }
    var lo := c * k;
    var hi := if c * k + k <= n then c * k + k else n;
    assert c < last ==> hi == c * k + k;
    assert c == last ==> hi == n;
    forall i | 0 <= i < n ensures ids[i] == c <==> lo <= i < hi {
      DivRange(i, k, c);
    }
    CountOfRange(ids, c, lo, hi);
  }

  /** No id outside `0 .. (n - 1) / k` is used. */
  lemma QuotientIdsBounded(n: nat, k: int)
    requires k > 0 && n > 0
    ensures forall i :: 0 <= i < n ==> 0 <= QuotientIds(n, k)[i] <= (n - 1) / k
  {
    var ids := QuotientIds(n, k);
    forall i | 0 <= i < n ensures 0 <= ids[i] <= (n - 1) / k {
      assert ids[i] == i / k;
      DivMonotone(0, i, k);
      DivMonotone(i, n - 1, k);
    }
  }

  // ---------------------------------------------------------------------------
  // Equal-mass scheme (partition.py:30): int(i / partition_size)

  function MassIds(n: nat, partitionSize: real): (ids: seq<int>)
    requires partitionSize != 0.0
    ensures |ids| == n
  {
    seq(n, i requires 0 <= i < n => Trunc((i as real) / partitionSize))
  }

  /** With a positive integral `partition_size` the mass ids are the quotient ids `i / k`. */
  lemma MassIdsAreQuotients(n: nat, k: int)
    requires k > 0
    ensures MassIds(n, k as real) == QuotientIds(n, k)
  {
    forall i | 0 <= i < n ensures MassIds(n, k as real)[i] == QuotientIds(n, k)[i] {
      TruncOfQuotient(i, k);
    }
  }

  /** With any positive `partition_size` the mass ids start at 0 and never decrease. */
  lemma MassIdsNonDecreasing(n: nat, partitionSize: real)
    requires partitionSize > 0.0
    ensures IdsFromZeroNonDecreasing(MassIds(n, partitionSize))
  {
    var ids := MassIds(n, partitionSize);
    forall i, j | 0 <= i <= j < n ensures ids[i] <= ids[j] {
      RealDivMonotone(i as real, j as real, partitionSize);
      assert 0.0 <= (i as real) / partitionSize;
    }
  }

  /** `MassIdsNonDecreasing` for the sizes where it holds. */
  lemma MassIdsNonDecreasingIfPositive(n: nat, partitionSize: real)
    requires partitionSize != 0.0
    ensures partitionSize > 0.0 ==> IdsFromZeroNonDecreasing(MassIds(n, partitionSize))
  {
    if partitionSize > 0.0 {
      MassIdsNonDecreasing(n, partitionSize);
    }
  }

  /**
   * `get_uniform_mass_partitions` on values: an empty list cannot be unpacked, a
   * zero size divides by zero, and otherwise the sorted samples come back unzipped
   * with one id per sample, starting at 0 and never decreasing for a positive size.
   */
  function MassPartition(s: seq<Sample>, partitionSize: real, decreasing: bool): (r: Result<Partitioned, CalibError>)
    ensures r.Failure? <==> s == [] || partitionSize == 0.0
    ensures r.Failure? ==> r.error == (if s == [] then NothingToUnpack else ZeroDivision)
    ensures r.Success? ==>
      && Zip(r.value.probs, r.value.labels) == SortByProb(s, decreasing)
      && |r.value.probs| == |r.value.labels| == |r.value.ids| == |s|
    ensures r.Success? && partitionSize > 0.0 ==> IdsFromZeroNonDecreasing(r.value.ids)
  {
    var sorted := SortByProb(s, decreasing);
    if |sorted| == 0 then Failure(NothingToUnpack)
    else if partitionSize == 0.0 then Failure(ZeroDivision)
    else
      ZipUnzip(sorted);
      MassIdsNonDecreasingIfPositive(|sorted|, partitionSize);
      Success(Partitioned(Probs(sorted), Labels(sorted), MassIds(|sorted|, partitionSize)))
  }

  // ---------------------------------------------------------------------------
  // Fixed-count scheme as written (partition.py:56): int(i / len(samples)) * partition_num

  /**
   * The id formula as written. Python multiplies by `partition_num` outside
   * `int()`, so a real `partition_num` gives the real id `0.0`; the model
   * truncates the product to keep ids integral, which changes no value because
   * the truncated quotient is always 0.
   */
  function CountIdsAsWritten(n: nat, partitionNum: real): (ids: seq<int>)
    ensures |ids| == n
  {
    seq(n, i requires 0 <= i < n => Trunc((Trunc((i as real) / (n as real)) as real) * partitionNum))
  }

  /** As written, every sample gets id 0, whatever `partition_num` is. */
  lemma CountIdsAsWrittenAllZero(n: nat, partitionNum: real)
    ensures forall i :: 0 <= i < n ==> CountIdsAsWritten(n, partitionNum)[i] == 0
  {
    forall i | 0 <= i < n ensures CountIdsAsWritten(n, partitionNum)[i] == 0 {
      assert 0.0 <= (i as real) / (n as real) < 1.0;
    }
  }

  /**
   * `get_uniform_num_partitions` as written, on values: only an empty list fails,
   * and every sample of the sorted list gets id 0, whatever `partition_num` is.
   */
  function CountPartitionAsWritten(s: seq<Sample>, partitionNum: real, decreasing: bool): (r: Result<Partitioned, CalibError>)
    ensures r.Failure? <==> s == []
    ensures r.Failure? ==> r.error == NothingToUnpack
    ensures r.Success? ==>
      && Zip(r.value.probs, r.value.labels) == SortByProb(s, decreasing)
      && |r.value.probs| == |r.value.labels| == |r.value.ids| == |s|
      && forall i :: 0 <= i < |s| ==> r.value.ids[i] == 0
  {
    var sorted := SortByProb(s, decreasing);
    if |sorted| == 0 then Failure(NothingToUnpack)
    else
      ZipUnzip(sorted);
      CountIdsAsWrittenAllZero(|sorted|, partitionNum);
      Success(Partitioned(Probs(sorted), Labels(sorted), CountIdsAsWritten(|sorted|, partitionNum)))
  }

  // ---------------------------------------------------------------------------
  // Fixed-count scheme, corrected: i / ceil(n / partition_num)

  function Ceil(x: real): (r: int)
    ensures r as real >= x && (r as real) < x + 1.0
  {
    -((-x).Floor)
  }

  /** The group size `ceil(n / partition_num)` of the corrected count scheme. */
  function CountGroupSize(n: nat, partitionNum: real): (k: int)
    requires partitionNum > 0.0
    ensures n > 0 ==> k >= 1
    ensures (k as real) * partitionNum >= n as real
  {
    Ceil((n as real) / partitionNum)
  }

  function CountIds(n: nat, partitionNum: real): (ids: seq<int>)
    requires partitionNum > 0.0
    ensures |ids| == n
  {
    if n == 0 then [] else QuotientIds(n, CountGroupSize(n, partitionNum))
  }

  /**
   * The corrected count ids are contiguous from 0, and fewer than
   * `partition_num` of them are used: every id is below `partition_num`.
   */
  lemma CountIdsBelowPartitionNum(n: nat, partitionNum: real)
    requires partitionNum > 0.0
    ensures IdsFromZeroNonDecreasing(CountIds(n, partitionNum))
    ensures forall i :: 0 <= i < n - 1 ==> CountIds(n, partitionNum)[i + 1] - CountIds(n, partitionNum)[i] in {0, 1}
    ensures forall i :: 0 <= i < n ==> (CountIds(n, partitionNum)[i] as real) < partitionNum
  {
    if n > 0 {
      var k := CountGroupSize(n, partitionNum);
      QuotientIdsContiguous(n, k);
      QuotientIdsBounded(n, k);
      var last := (n - 1) / k;
      DivRange(n - 1, k, last);
      assert (last * k) as real < n as real;
      assert (last as real) * (k as real) < (k as real) * partitionNum;
    }
  }

  /**
   * The count partitioner, corrected: an empty list cannot be unpacked, a
   * non-positive `partition_num` is rejected, and otherwise the sorted samples get
   * contiguous ids from 0 that stay below `partition_num`.
   */
  function CountPartition(s: seq<Sample>, partitionNum: real, decreasing: bool): (r: Result<Partitioned, CalibError>)
    ensures r.Failure? <==> s == [] || partitionNum <= 0.0
    ensures r.Failure? ==> r.error == (if s == [] then NothingToUnpack else InvalidParameter)
    ensures r.Success? ==>
      && Zip(r.value.probs, r.value.labels) == SortByProb(s, decreasing)
      && |r.value.probs| == |r.value.labels| == |r.value.ids| == |s|
      && IdsFromZeroNonDecreasing(r.value.ids)
      && forall i :: 0 <= i < |s| ==> (r.value.ids[i] as real) < partitionNum
  {
    var sorted := SortByProb(s, decreasing);
    if |sorted| == 0 then Failure(NothingToUnpack)
    else if partitionNum <= 0.0 then Failure(InvalidParameter)
    else
      ZipUnzip(sorted);
      CountIdsBelowPartitionNum(|sorted|, partitionNum);
      Success(Partitioned(Probs(sorted), Labels(sorted), CountIds(|sorted|, partitionNum)))
  }

  /** Four samples into two partitions: as written all ids are 0, corrected they are 0, 0, 1, 1. */
  lemma CountSchemeCounterexample()
    ensures CountIdsAsWritten(4, 2.0) == [0, 0, 0, 0]
    ensures CountIds(4, 2.0) == [0, 0, 1, 1]
  {
    CountIdsAsWrittenAllZero(4, 2.0);
    assert CountGroupSize(4, 2.0) == 2;
  }

  // ---------------------------------------------------------------------------
  // Equal-width scheme (partition.py:88-91): int((prob - min_prob) / width)

  function MinProb(probs: seq<real>): (m: real)
    requires |probs| > 0
    ensures m in probs
    ensures forall i :: 0 <= i < |probs| ==> m <= probs[i]
  {
    if |probs| == 1 then probs[0]
    else
      var rest := MinProb(probs[1..]);
      assert forall i :: 1 <= i < |probs| ==> probs[1..][i - 1] == probs[i];
      if probs[0] <= rest then probs[0] else rest
  }

  /** One sample's id: `int((prob - min_prob) / width)`. */
  function WidthId(prob: real, lowest: real, width: real): int
    requires width != 0.0
  {
    Trunc((prob - lowest) / width)
  }

  function WidthIds(probs: seq<real>, width: real): (ids: seq<int>)
    requires |probs| > 0 && width != 0.0
    ensures |ids| == |probs|
    ensures forall i :: 0 <= i < |probs| ==> ids[i] == WidthId(probs[i], MinProb(probs), width)
  {
    var lowest := MinProb(probs);
    seq(|probs|, i requires 0 <= i < |probs| => WidthId(probs[i], lowest, width))
  }

  /** A sample at the minimum probability gets id 0, whatever the width. */
  lemma WidthMinimumGetsZero(probs: seq<real>, width: real)
    requires |probs| > 0 && width != 0.0
    ensures forall i :: 0 <= i < |probs| && probs[i] == MinProb(probs) ==> WidthIds(probs, width)[i] == 0
  {
    forall i | 0 <= i < |probs| && probs[i] == MinProb(probs)
      ensures WidthIds(probs, width)[i] == 0
    {
      assert probs[i] - MinProb(probs) == 0.0;
      assert 0.0 / width == 0.0;
    }
  }

  /** Scaling `id <= x < id + 1` by a positive `w`. */
  lemma ScaleBracket(x: real, w: real, d: real, id: int)
    requires w > 0.0 && x * w == d
    requires (id as real) <= x < (id as real) + 1.0
    ensures (id as real) * w <= d
    ensures d < ((id + 1) as real) * w
  {
    RealMulMonotone(id as real, x, w);
    var next := (id as real) + 1.0;
    RealMulMonotone(x, next, w);
    assert x * w < next * w;
    assert ((id + 1) as real) == next;
    assert d < next * w;
  }

  /** `prob` lies in the half-open bucket `[lowest + id * width, lowest + (id + 1) * width)`. */
  predicate InBucket(prob: real, lowest: real, width: real, id: int)
  {
    id >= 0 && lowest + (id as real) * width <= prob < lowest + ((id + 1) as real) * width
  }

  /** Where one sample lands: `lowest + id * width <= prob < lowest + (id + 1) * width`. */
  lemma WidthIdLocates(prob: real, lowest: real, width: real, id: int)
    requires lowest <= prob && width > 0.0
    requires id == Trunc((prob - lowest) / width)
    ensures InBucket(prob, lowest, width, id)
  {
    var x := (prob - lowest) / width;
    RealDivMonotone(0.0, prob - lowest, width);
    assert id == x.Floor;
    ScaleBracket(x, width, prob - lowest, id);
  }

  /**
   * For a positive width every id is non-negative and locates its sample:
   * `min + id * width <= prob < min + (id + 1) * width`.
   */
  lemma WidthIdsLocateSamples(probs: seq<real>, width: real)
    requires |probs| > 0 && width > 0.0
    ensures forall i :: 0 <= i < |probs| ==> InBucket(probs[i], MinProb(probs), width, WidthIds(probs, width)[i])
  {
    forall i | 0 <= i < |probs|
      ensures InBucket(probs[i], MinProb(probs), width, WidthIds(probs, width)[i])
    {
      WidthIdLocatesAt(probs, width, i);
    }
  }

  lemma WidthIdLocatesAt(probs: seq<real>, width: real, i: int)
    requires |probs| > 0 && width > 0.0 && 0 <= i < |probs|
    ensures InBucket(probs[i], MinProb(probs), width, WidthIds(probs, width)[i])
  {
    WidthIdLocates(probs[i], MinProb(probs), width, WidthIds(probs, width)[i]);
  }

  /** For a positive width and ascending probabilities, ids never decrease (they may skip values). */
  lemma WidthIdsNonDecreasing(probs: seq<real>, width: real)
    requires |probs| > 0 && width > 0.0
    requires forall i, j :: 0 <= i <= j < |probs| ==> probs[i] <= probs[j]
    ensures IdsFromZeroNonDecreasing(WidthIds(probs, width))
  {
    var lowest := MinProb(probs);
    var ids := WidthIds(probs, width);
    assert lowest == probs[0];
    forall i, j | 0 <= i <= j < |probs| ensures ids[i] <= ids[j] {
      RealDivMonotone(probs[i] - lowest, probs[j] - lowest, width);
      RealDivMonotone(0.0, probs[i] - lowest, width);
    }
  }

  /** Ids can skip: probabilities 0 and 1 at width 0.25 get ids 0 and 4. */
  lemma WidthIdsMaySkip()
    ensures WidthIds([0.0, 1.0], 0.25) == [0, 4]
  {
    assert MinProb([0.0, 1.0]) == 0.0;
  }

  /** `WidthIdsLocateSamples` for the widths where it holds. */
  lemma WidthIdsLocateIfPositive(probs: seq<real>, width: real)
    requires |probs| > 0 && width != 0.0
    ensures width > 0.0 ==>
      forall i :: 0 <= i < |probs| ==> InBucket(probs[i], MinProb(probs), width, WidthIds(probs, width)[i])
  {
    if width > 0.0 {
      WidthIdsLocateSamples(probs, width);
    }
  }

  /**
   * `get_uniform_width_partitions` on values: an empty list cannot be unpacked, a
   * zero width divides by zero, and otherwise, for a positive width, each sorted
   * sample lies in the bucket of width `width` above the minimum that its id names.
   */
  function WidthPartition(s: seq<Sample>, width: real, decreasing: bool): (r: Result<Partitioned, CalibError>)
    ensures r.Failure? <==> s == [] || width == 0.0
    ensures r.Failure? ==> r.error == (if s == [] then NothingToUnpack else ZeroDivision)
    ensures r.Success? ==>
      && Zip(r.value.probs, r.value.labels) == SortByProb(s, decreasing)
      && |r.value.probs| == |r.value.labels| == |r.value.ids| == |s|
    ensures r.Success? && width > 0.0 ==>
      forall i :: 0 <= i < |s| ==> InBucket(r.value.probs[i], MinProb(r.value.probs), width, r.value.ids[i])
  {
    var sorted := SortByProb(s, decreasing);
    if |sorted| == 0 then Failure(NothingToUnpack)
    else if width == 0.0 then Failure(ZeroDivision)
    else
      ZipUnzip(sorted);
      WidthIdsLocateIfPositive(Probs(sorted), width);
      Success(Partitioned(Probs(sorted), Labels(sorted), WidthIds(Probs(sorted), width)))
  }

  // ---------------------------------------------------------------------------
  // The partitioners, sorting the caller's list in place

  /** `samples.sort(key=lambda x: x[0], reverse=decreasing)` on the caller's list. */
  method SortInPlace(samples: array<Sample>, decreasing: bool)
    modifies samples
    ensures samples[..] == SortByProb(old(samples[..]), decreasing)
  {
    var sorted := SortByProb(samples[..], decreasing);
    forall i | 0 <= i < samples.Length {
      samples[i] := sorted[i];
    }
  }

  /** `get_uniform_mass_partitions` (partition.py:9-32). */
  method UniformMassPartitions(samples: array<Sample>, partitionSize: real, decreasing: bool)
    returns (r: Result<Partitioned, CalibError>)
    modifies samples
    ensures samples[..] == SortByProb(old(samples[..]), decreasing)
    ensures r == MassPartition(old(samples[..]), partitionSize, decreasing)
  {
    SortInPlace(samples, decreasing);
    if samples.Length == 0 {
      return Failure(NothingToUnpack);
    }
    var probs, labels := Probs(samples[..]), Labels(samples[..]);
    if partitionSize == 0.0 {
      return Failure(ZeroDivision);
    }
    r := Success(Partitioned(probs, labels, MassIds(samples.Length, partitionSize)));
  }

  /** `get_uniform_num_partitions` as written (partition.py:35-58). */
  method UniformNumPartitions(samples: array<Sample>, partitionNum: real, decreasing: bool)
    returns (r: Result<Partitioned, CalibError>)
    modifies samples
    ensures samples[..] == SortByProb(old(samples[..]), decreasing)
    ensures r == CountPartitionAsWritten(old(samples[..]), partitionNum, decreasing)
  {
    SortInPlace(samples, decreasing);
    if samples.Length == 0 {
      return Failure(NothingToUnpack);
    }
    var probs, labels := Probs(samples[..]), Labels(samples[..]);
    r := Success(Partitioned(probs, labels, CountIdsAsWritten(samples.Length, partitionNum)));
  }

  /** `get_uniform_num_partitions` with the corrected id formula. */
  method UniformNumPartitionsCorrected(samples: array<Sample>, partitionNum: real, decreasing: bool)
    returns (r: Result<Partitioned, CalibError>)
    modifies samples
    ensures samples[..] == SortByProb(old(samples[..]), decreasing)
    ensures r == CountPartition(old(samples[..]), partitionNum, decreasing)
  {
    SortInPlace(samples, decreasing);
    if samples.Length == 0 {
      return Failure(NothingToUnpack);
    }
    var probs, labels := Probs(samples[..]), Labels(samples[..]);
    if partitionNum <= 0.0 {
      return Failure(InvalidParameter);
    }
    r := Success(Partitioned(probs, labels, CountIds(samples.Length, partitionNum)));
  }

  /** `get_uniform_width_partitions` (partition.py:61-93). */
  method UniformWidthPartitions(samples: array<Sample>, width: real, decreasing: bool)
    returns (r: Result<Partitioned, CalibError>)
    modifies samples
    ensures samples[..] == SortByProb(old(samples[..]), decreasing)
    ensures r == WidthPartition(old(samples[..]), width, decreasing)
  {
    SortInPlace(samples, decreasing);
    if samples.Length == 0 {
      return Failure(NothingToUnpack);
    }
    var probs, labels := Probs(samples[..]), Labels(samples[..]);
    if width == 0.0 {
      return Failure(ZeroDivision);
    }
    r := Success(Partitioned(probs, labels, WidthIds(probs, width)));
  }

  // ---------------------------------------------------------------------------
  // Scheme dispatch shared by the calibrator's fit and the ECE metric

  /** The keyword argument each scheme reads: `partition_size`, `width`, or otherwise `partition_num`. */
  function ParamKey(scheme: string): (key: string)
    ensures key in {"partition_size", "width", "partition_num"}
  {
    if scheme == "mass" then "partition_size"
    else if scheme == "width" then "width"
    else "partition_num"
  }

  /**
   * The partition step of `fit`, corrected: read the scheme's parameter (a missing
   * one is a KeyError before anything is sorted), then partition in ascending
   * order. Any scheme other than `mass` and `width` uses the corrected count
   * scheme, which also rejects a non-positive `partition_num`; the library's own
   * dispatch is `PartitionByAsWritten`.
   */
  function PartitionBy(scheme: string, params: map<string, real>, s: seq<Sample>): (r: Result<Partitioned, CalibError>)
    ensures r.Failure? <==>
      || ParamKey(scheme) !in params
      || s == []
      || (scheme in {"mass", "width"} && params[ParamKey(scheme)] == 0.0)
      || (scheme !in {"mass", "width"} && params[ParamKey(scheme)] <= 0.0)
    ensures r.Success? ==>
      && r.value.probs == Probs(SortByProb(s, false))
      && r.value.labels == Labels(SortByProb(s, false))
      && Zip(r.value.probs, r.value.labels) == SortByProb(s, false)
      && |r.value.ids| == |s|
  {
    var key := ParamKey(scheme);
    if key !in params then Failure(MissingParameter(key))
    else if scheme == "mass" then MassPartition(s, params[key], false)
    else if scheme == "width" then WidthPartition(s, params[key], false)
    else CountPartition(s, params[key], false)
  }

  /**
   * The partition step of `fit` as written: the count scheme is the library's
   * own, which never fails on `partition_num`.
   */
  function PartitionByAsWritten(scheme: string, params: map<string, real>, s: seq<Sample>): (r: Result<Partitioned, CalibError>)
    ensures r.Failure? <==>
      || ParamKey(scheme) !in params
      || s == []
      || (scheme in {"mass", "width"} && params[ParamKey(scheme)] == 0.0)
    ensures r.Success? ==>
      && Zip(r.value.probs, r.value.labels) == SortByProb(s, false)
      && |r.value.probs| == |r.value.labels| == |r.value.ids| == |s|
  {
    var key := ParamKey(scheme);
    if key !in params then Failure(MissingParameter(key))
    else if scheme == "mass" then MassPartition(s, params[key], false)
    else if scheme == "width" then WidthPartition(s, params[key], false)
    else CountPartitionAsWritten(s, params[key], false)
  }

  /**
   * As written, the count scheme puts every sample in partition 0, whatever
   * `partition_num` is, including zero or a negative number.
   */
  lemma CountAsWrittenIsOnePartition(params: map<string, real>, s: seq<Sample>)
    requires "partition_num" in params && s != []
    ensures PartitionByAsWritten("count", params, s).Success?
    ensures forall i :: 0 <= i < |s| ==> PartitionByAsWritten("count", params, s).value.ids[i] == 0
  {
    CountIdsAsWrittenAllZero(|s|, params["partition_num"]);
  }

  /** Sorting ascending by probability leaves the probabilities in ascending order. */
  lemma SortedProbsAscending(s: seq<Sample>)
    ensures var probs := Probs(SortByProb(s, false));
      forall i, j :: 0 <= i <= j < |probs| ==> probs[i] <= probs[j]
  {
    SortIsSorted(s, false);
  }

  /**
   * A successful partition returns the samples as an ascending permutation of the
   * input, and with a positive parameter its ids start at 0 and never decrease.
   */
  lemma PartitionByWellFormed(scheme: string, params: map<string, real>, s: seq<Sample>)
    requires PartitionBy(scheme, params, s).Success?
    ensures var p := PartitionBy(scheme, params, s).value;
      && multiset(Zip(p.probs, p.labels)) == multiset(s)
      && (forall i, j :: 0 <= i <= j < |p.probs| ==> p.probs[i] <= p.probs[j])
    ensures params[ParamKey(scheme)] > 0.0 ==> IdsFromZeroNonDecreasing(PartitionBy(scheme, params, s).value.ids)
  {
    var p := PartitionBy(scheme, params, s).value;
    SortPermutes(s, false);
    SortedProbsAscending(s);
    var param := params[ParamKey(scheme)];
    if param > 0.0 {
      if scheme == "mass" {
        MassIdsNonDecreasing(|s|, param);
      } else if scheme == "width" {
        WidthIdsNonDecreasing(p.probs, param);
      } else {
        CountIdsBelowPartitionNum(|s|, param);
      }
    }
  }

  /**
   * The partition step on the calibrator's own sample list, which it sorts in place
   * unless the parameter is missing.
   */
  method PartitionInPlace(scheme: string, params: map<string, real>, samples: array<Sample>)
    returns (r: Result<Partitioned, CalibError>)
    modifies samples
    ensures samples[..] == if ParamKey(scheme) in params then SortByProb(old(samples[..]), false) else old(samples[..])
    ensures r == PartitionBy(scheme, params, old(samples[..]))
  {
    var key := ParamKey(scheme);
    if key !in params {
      return Failure(MissingParameter(key));
    }
    if scheme == "mass" {
      r := UniformMassPartitions(samples, params[key], false);
    } else if scheme == "width" {
      r := UniformWidthPartitions(samples, params[key], false);
    } else {
      r := UniformNumPartitionsCorrected(samples, params[key], false);
    }
  }
}
