/**
 * The calibrator's bins. `Bin` is the abstract bin the calibrator and the ECE
 * metric use (a sample list with derived statistics), and bucketing routes each
 * sorted sample to the bin of its partition id, one bin per distinct id.
 */
module Bins {
  import opened Samples
  import opened Partition
  import opened Keys

  /** A bin: its id and the samples added to it, in the order they were added. */
  datatype Bin = Bin(id: int, samples: seq<Sample>)

  /** `low_prob`: the smallest probability in a non-empty bin. */
  function LowProb(b: Bin): (r: real)
    requires |b.samples| > 0
    ensures exists i :: 0 <= i < |b.samples| && b.samples[i].prob == r
    ensures forall i :: 0 <= i < |b.samples| ==> r <= b.samples[i].prob
  {
    var probs := Probs(b.samples);
    var m := MinProb(probs);
    assert exists i :: 0 <= i < |probs| && probs[i] == m;
    m
  }

  /** `avg_prob`: the mean probability of a non-empty bin. */
  function AvgProb(b: Bin): real
    requires |b.samples| > 0
  {
    SumProbs(b.samples) / (|b.samples| as real)
  }

  /** `calibrated_score`: the mean label of a non-empty bin. */
  function CalibratedScore(b: Bin): real
    requires |b.samples| > 0
  {
    (SumLabels(b.samples) as real) / (|b.samples| as real)
  }

  /** The mean probability of a bin whose probabilities lie in [0, 1] lies in [0, 1]. */
  lemma AvgProbIsProbability(b: Bin)
    requires |b.samples| > 0 && ProbsInUnitInterval(b.samples)
    ensures InUnitInterval(AvgProb(b))
  {
    SumProbsBounds(b.samples);
  }

  /** With 0/1 labels, the calibrated score, the fraction of positives, lies in [0, 1]. */
  lemma CalibratedScoreIsProbability(b: Bin)
    requires |b.samples| > 0 && BinaryLabels(b.samples)
    ensures InUnitInterval(CalibratedScore(b))
  {
    SumLabelsBounds(b.samples);
  }

  /**
   * `current.merge(other)`: `current` keeps its id and takes over the samples of
   * `other`. The absorbed samples go first, since `other` is the earlier bin on the
   * smoothing stack; the order inside a bin is not visible to any statistic.
   */
  function Merge(current: Bin, other: Bin): (r: Bin)
    ensures r.id == current.id
    ensures |r.samples| == |current.samples| + |other.samples|
    ensures multiset(r.samples) == multiset(current.samples) + multiset(other.samples)
  {
    Bin(current.id, other.samples + current.samples)
  }

  // ---------------------------------------------------------------------------
  // Statistics of a merged bin

  lemma {:induction false} SumLabelsConcat(a: seq<Sample>, b: seq<Sample>)
    ensures SumLabels(a + b) == SumLabels(a) + SumLabels(b)
    decreases |b|
  {
    if b == [] {
      assert a + b == a;
    } else {
      var n := |b| - 1;
      assert (a + b)[..|a + b| - 1] == a + b[..n];
      SumLabelsConcat(a, b[..n]);
    }
  }

  lemma {:induction false} SumProbsConcat(a: seq<Sample>, b: seq<Sample>)
    ensures SumProbs(a + b) == SumProbs(a) + SumProbs(b)
    decreases |b|
  {
    if b == [] {
      assert a + b == a;
    } else {
      var n := |b| - 1;
      assert (a + b)[..|a + b| - 1] == a + b[..n];
      SumProbsConcat(a, b[..n]);
    }
  }

  /** Comparing two ratios with positive denominators by cross-multiplication. */
  lemma RatioLess(x: int, m: int, y: int, n: int)
    requires m > 0 && n > 0
    ensures (x as real) / (m as real) < (y as real) / (n as real) <==> x * n < y * m
  {
    var p, q := (x as real) / (m as real), (y as real) / (n as real);
    var mn := (m as real) * (n as real);
    assert (x as real) == p * (m as real);
    assert (y as real) == q * (n as real);
    assert ((x * n) as real) == p * mn;
    assert ((y * m) as real) == q * mn;
    RealMulMonotone(p, q, mn);
    RealMulMonotone(q, p, mn);
  }

  /** The mediant `(a + b) / (m + n)` lies strictly between two different ratios `a / m < b / n`. */
  lemma MediantBetween(a: int, m: int, b: int, n: int)
    requires m > 0 && n > 0
    requires (a as real) / (m as real) < (b as real) / (n as real)
    ensures (a as real) / (m as real) < ((a + b) as real) / ((m + n) as real)
    ensures ((a + b) as real) / ((m + n) as real) < (b as real) / (n as real)
  {
    RatioLess(a, m, b, n);
    assert a * (m + n) == a * m + a * n;
    assert (a + b) * m == a * m + b * m;
    RatioLess(a, m, a + b, m + n);
    assert (a + b) * n == a * n + b * n;
    assert b * (m + n) == b * m + b * n;
    RatioLess(a + b, m + n, b, n);
  }

  /** The mediant of two equal ratios is that ratio. */
  lemma MediantEqual(a: int, m: int, b: int, n: int)
    requires m > 0 && n > 0
    requires (a as real) / (m as real) == (b as real) / (n as real)
    ensures ((a + b) as real) / ((m + n) as real) == (a as real) / (m as real)
  {
    RatioLess(a, m, b, n);
    RatioLess(b, n, a, m);
    assert a * n == b * m;
    assert a * (m + n) == a * m + a * n;
    assert (a + b) * m == a * m + b * m;
    RatioLess(a, m, a + b, m + n);
    RatioLess(a + b, m + n, a, m);
  }

  /**
   * The merged bin's calibrated score is the sample-weighted mean of the two scores:
   * it lies between them, strictly when they differ.
   */
  lemma MergedScoreBetween(current: Bin, other: Bin)
    requires |current.samples| > 0 && |other.samples| > 0
    ensures CalibratedScore(current) < CalibratedScore(other) ==>
      CalibratedScore(current) < CalibratedScore(Merge(current, other)) < CalibratedScore(other)
    ensures CalibratedScore(current) == CalibratedScore(other) ==>
      CalibratedScore(Merge(current, other)) == CalibratedScore(current)
    ensures CalibratedScore(other) < CalibratedScore(current) ==>
      CalibratedScore(other) < CalibratedScore(Merge(current, other)) < CalibratedScore(current)
  {
    var a, m := SumLabels(current.samples), |current.samples|;
    var b, n := SumLabels(other.samples), |other.samples|;
    SumLabelsConcat(other.samples, current.samples);
    var merged := Merge(current, other);
    assert CalibratedScore(merged) == ((a + b) as real) / ((m + n) as real);
    assert ((b + a) as real) / ((n + m) as real) == ((a + b) as real) / ((m + n) as real);
    if CalibratedScore(current) < CalibratedScore(other) {
      MediantBetween(a, m, b, n);
    } else if CalibratedScore(current) == CalibratedScore(other) {
      MediantEqual(a, m, b, n);
    } else {
      MediantBetween(b, n, a, m);
    }
  }

  /** The merged bin's lowest probability is the lower of the two. */
  lemma MergedLowProb(current: Bin, other: Bin)
    requires |current.samples| > 0 && |other.samples| > 0
    ensures LowProb(Merge(current, other)) == if LowProb(other) <= LowProb(current) then LowProb(other) else LowProb(current)
  {
    var merged := Merge(current, other);
    var k := |other.samples|;
    assert forall i :: 0 <= i < |current.samples| ==> merged.samples[k + i] == current.samples[i];
    assert forall i :: 0 <= i < k ==> merged.samples[i] == other.samples[i];
  }

  // ---------------------------------------------------------------------------
  // Bucketing by partition id (fit, isotonic_regression_calibrator.py:89-95)

  /**
   * The samples whose partition id is `k`, in order: what `add_sample` puts in bin
   * `k`. Each is a sample carrying id `k`, and there are as many as `k` occurs in `ids`.
   */
  function Select(s: seq<Sample>, ids: seq<int>, k: int): (r: seq<Sample>)
    requires |s| == |ids|
    ensures |r| == multiset(ids)[k]
    ensures forall x :: x in r ==> exists i :: 0 <= i < |s| && s[i] == x && ids[i] == k
    decreases |s|
  {
    if s == [] then []
    else
      var n := |s| - 1;
      assert ids == ids[..n] + [ids[n]];
      Select(s[..n], ids[..n], k) + (if ids[n] == k then [s[n]] else [])
  }

  /** The distinct ids of a partition, `set(part_ids)`. */
  function IdSet(ids: seq<int>): set<int>
  {
    set k | k in ids
  }

  /** The bins of one partition, one per distinct id, holding the samples with that id. */
  function BinsMap(s: seq<Sample>, ids: seq<int>): (bins: map<int, Bin>)
    requires |s| == |ids|
    ensures bins.Keys == IdSet(ids)
    ensures forall k :: k in bins ==> bins[k].id == k && |bins[k].samples| > 0
  {
    map k | k in IdSet(ids) :: Bin(k, Select(s, ids, k))
  }

  /** Every bin in the map holds at least one sample. */
  predicate NonEmptyBins(bins: map<int, Bin>)
  {
    forall k :: k in bins ==> |bins[k].samples| > 0
  }

  /** Every bin in the sequence holds at least one sample. */
  predicate AllNonEmpty(bins: seq<Bin>)
  {
    forall i :: 0 <= i < |bins| ==> |bins[i].samples| > 0
  }

  /** The bins of a dictionary visited in ascending id order. */
  ghost function OrderedBins(bins: map<int, Bin>): (r: seq<Bin>)
    ensures |r| == |bins.Keys|
    ensures forall i :: 0 <= i < |r| ==> r[i] in bins.Values
    ensures NonEmptyBins(bins) ==> AllNonEmpty(r)
  {
    var keys := AscendingKeys(bins.Keys);
    assert forall i :: 0 <= i < |keys| ==> keys[i] in keys;
    seq(|keys|, i requires 0 <= i < |keys| => bins[keys[i]])
  }

  /** The `i`-th bin in ascending id order is the bin of the `i`-th smallest id. */
  lemma OrderedBinsAt(bins: map<int, Bin>, keys: seq<int>)
    requires keys == AscendingKeys(bins.Keys)
    ensures |keys| == |OrderedBins(bins)|
    ensures forall i :: 0 <= i < |keys| ==> keys[i] in bins && OrderedBins(bins)[i] == bins[keys[i]]
  {
    assert forall i :: 0 <= i < |keys| ==> keys[i] in keys;
  }

  /** The bins of one partition in ascending id order. */
  ghost function BinsOf(s: seq<Sample>, ids: seq<int>): (r: seq<Bin>)
    requires |s| == |ids|
    ensures AllNonEmpty(r)
  {
    OrderedBins(BinsMap(s, ids))
  }

  /** When every sample carries id 0 there is one bin, holding all the samples in order. */
  lemma BinsOfOneId(s: seq<Sample>, ids: seq<int>)
    requires |s| == |ids| > 0
    requires forall i :: 0 <= i < |ids| ==> ids[i] == 0
    ensures BinsOf(s, ids) == [Bin(0, s)]
  {
    assert ids[0] == 0;
    assert IdSet(ids) == {0};
    var bins := BinsOf(s, ids);
    assert |bins| == 1;
    var m := BinsMap(s, ids);
    assert bins[0] in m.Values;
    assert bins[0] == m[0];
    FlattenBinsOfSorted(s, ids);
    assert bins[..|bins| - 1] == [];
    assert Flatten(bins) == bins[0].samples;
    assert bins == [Bin(0, s)];
  }

  /** The samples of a sequence of bins, bin after bin. */
  function Flatten(bins: seq<Bin>): seq<Sample>
  {
    if bins == [] then [] else Flatten(bins[..|bins| - 1]) + bins[|bins| - 1].samples
  }

  lemma {:induction false} FlattenConcat(a: seq<Bin>, b: seq<Bin>)
    ensures Flatten(a + b) == Flatten(a) + Flatten(b)
    decreases |b|
  {
    if b == [] {
      assert a + b == a;
    } else {
      var n := |b| - 1;
      assert (a + b)[..|a + b| - 1] == a + b[..n];
      FlattenConcat(a, b[..n]);
    }
  }

  /** `Select` over a sample list extended by one sample. */
  lemma SelectSnoc(s: seq<Sample>, ids: seq<int>, x: Sample, j: int, k: int)
    requires |s| == |ids|
    ensures Select(s + [x], ids + [j], k) == Select(s, ids, k) + (if j == k then [x] else [])
  {
    assert (s + [x])[..|s|] == s;
    assert (ids + [j])[..|ids|] == ids;
  }

  /** The bins of `s` and `ids` visited along a key list. */
  function BinsAlong(s: seq<Sample>, ids: seq<int>, keys: seq<int>): (r: seq<Bin>)
    requires |s| == |ids|
    ensures |r| == |keys|
  {
    seq(|keys|, i requires 0 <= i < |keys| => Bin(keys[i], Select(s, ids, keys[i])))
  }

  lemma BinsOfIsBinsAlong(s: seq<Sample>, ids: seq<int>)
    requires |s| == |ids|
    ensures BinsOf(s, ids) == BinsAlong(s, ids, AscendingKeys(IdSet(ids)))
  {
  }

  /** The ascending key list of a set of ids is strictly ascending and lists exactly those ids. */
  lemma AscendingKeysOfIds(ids: seq<int>)
    ensures var keys := AscendingKeys(IdSet(ids));
      && (forall a, b :: 0 <= a < b < |keys| ==> keys[a] < keys[b])
      && IdSet(keys) == IdSet(ids)
  {
    var keys := AscendingKeys(IdSet(ids));
    assert forall i :: 0 <= i < |keys| ==> keys[i] in keys;
  }

  /** In a strictly ascending list of ids that holds the largest id `j`, `j` comes last. */
  lemma LastKeyIsMax(keys: seq<int>, ids: seq<int>, j: int)
    requires forall a, b :: 0 <= a < b < |keys| ==> keys[a] < keys[b]
    requires IdSet(keys) == IdSet(ids)
    requires j in ids && forall i :: 0 <= i < |ids| ==> ids[i] <= j
    ensures |keys| > 0 && keys[|keys| - 1] == j
  {
    assert j in IdSet(keys);
    var p :| 0 <= p < |keys| && keys[p] == j;
    var last := |keys| - 1;
    assert keys[last] in IdSet(ids);
    var q :| 0 <= q < |ids| && ids[q] == keys[last];
    if p < last {
      assert false;
    }
  }

  /** Bins along a key list, after one more sample with id `j`. */
  lemma BinsAlongSnoc(s: seq<Sample>, ids: seq<int>, x: Sample, j: int, keys: seq<int>)
    requires |s| == |ids|
    ensures forall i :: 0 <= i < |keys| ==>
      BinsAlong(s + [x], ids + [j], keys)[i] == Bin(keys[i], Select(s, ids, keys[i]) + (if j == keys[i] then [x] else []))
  {
    forall i | 0 <= i < |keys|
      ensures BinsAlong(s + [x], ids + [j], keys)[i] == Bin(keys[i], Select(s, ids, keys[i]) + (if j == keys[i] then [x] else []))
    {
      SelectSnoc(s, ids, x, j, keys[i]);
    }
  }

  /** The step of `FlattenAlongSorted` when the new sample's id is already in use. */
  lemma FlattenAlongSnocOld(s: seq<Sample>, ids: seq<int>, x: Sample, j: int, keys: seq<int>)
    requires |s| == |ids| && |keys| > 0 && keys[|keys| - 1] == j
    requires forall a, b :: 0 <= a < b < |keys| ==> keys[a] < keys[b]
    ensures Flatten(BinsAlong(s + [x], ids + [j], keys)) == Flatten(BinsAlong(s, ids, keys)) + [x]
  {
    var last := |keys| - 1;
    var before, after := BinsAlong(s, ids, keys), BinsAlong(s + [x], ids + [j], keys);
    BinsAlongSnoc(s, ids, x, j, keys);
    forall i | 0 <= i < last ensures after[i] == before[i] {
      assert keys[i] < keys[last];
      assert Select(s, ids, keys[i]) + [] == Select(s, ids, keys[i]);
    }
    assert before == before[..last] + [before[last]];
    assert after == before[..last] + [Bin(j, before[last].samples + [x])];
    FlattenConcat(before[..last], [before[last]]);
    FlattenConcat(before[..last], [Bin(j, before[last].samples + [x])]);
  }

  /** The step of `FlattenAlongSorted` when the new sample opens a new, largest id. */
  lemma FlattenAlongSnocNew(s: seq<Sample>, ids: seq<int>, x: Sample, j: int, keys: seq<int>)
    requires |s| == |ids| && |keys| > 0 && keys[|keys| - 1] == j && j !in ids
    requires forall a, b :: 0 <= a < b < |keys| ==> keys[a] < keys[b]
    ensures Flatten(BinsAlong(s + [x], ids + [j], keys)) == Flatten(BinsAlong(s, ids, keys[..|keys| - 1])) + [x]
  {
    var last := |keys| - 1;
    var front, after := BinsAlong(s, ids, keys[..last]), BinsAlong(s + [x], ids + [j], keys);
    BinsAlongSnoc(s, ids, x, j, keys);
    assert multiset(ids)[j] == 0;
    assert Select(s, ids, j) == [];
    forall i | 0 <= i < last ensures after[i] == front[i] {
      assert keys[i] < keys[last];
      assert Select(s, ids, keys[i]) + [] == Select(s, ids, keys[i]);
    }
    assert Select(s, ids, j) + [x] == [x];
    assert after[last] == Bin(j, [x]);
    assert after == front + [Bin(j, [x])];
    FlattenConcat(front, [Bin(j, [x])]);
  }

  /** A key list that covers the ids is empty only when the ids are. */
  lemma KeysCoverIds(keys: seq<int>, ids: seq<int>)
    requires IdSet(keys) == IdSet(ids)
    ensures keys != [] ==> ids != []
  {
    if keys != [] {
      assert keys[0] in IdSet(keys);
    }
  }

  /** Dropping the largest key from the key list matches dropping the sample that alone held it. */
  lemma DropLastKey(keys: seq<int>, ids: seq<int>, j: int)
    requires forall a, b :: 0 <= a < b < |keys| ==> keys[a] < keys[b]
    requires |keys| > 0 && keys[|keys| - 1] == j && j !in ids
    requires IdSet(keys) == IdSet(ids + [j])
    ensures IdSet(keys[..|keys| - 1]) == IdSet(ids)
  {
    var last := |keys| - 1;
    var front := keys[..last];
    assert keys == front + [j];
    forall k | k in IdSet(front) ensures k in IdSet(ids) {
      var p :| 0 <= p < |front| && front[p] == k;
      assert keys[p] < keys[last];
      assert k in IdSet(keys);
      assert k in ids + [j] && k != j;
    }
    assert IdSet(keys) == IdSet(front) + {j};
    assert IdSet(ids + [j]) == IdSet(ids) + {j};
  }

  /**
   * With non-decreasing ids, the bins along the ascending list of distinct ids give
   * back the sample list itself, bin after bin.
   */
  lemma {:induction false} FlattenAlongSorted(s: seq<Sample>, ids: seq<int>, keys: seq<int>)
    requires |s| == |ids|
    requires forall i, j :: 0 <= i <= j < |ids| ==> ids[i] <= ids[j]
    requires forall a, b :: 0 <= a < b < |keys| ==> keys[a] < keys[b]
    requires IdSet(keys) == IdSet(ids)
    ensures Flatten(BinsAlong(s, ids, keys)) == s
    decreases |s|
  {
    if s == [] {
      KeysCoverIds(keys, ids);
    } else {
      var n := |s| - 1;
      var s', ids', x, j := s[..n], ids[..n], s[n], ids[n];
      assert s == s' + [x] && ids == ids' + [j];
      assert forall a, b :: 0 <= a <= b < n ==> ids'[a] <= ids'[b] by {
        forall a, b | 0 <= a <= b < n ensures ids'[a] <= ids'[b] {
          assert ids'[a] == ids[a] && ids'[b] == ids[b];
        }
      }
      LastKeyIsMax(keys, ids, j);
      var last := |keys| - 1;
      if j in ids' {
        assert IdSet(ids) == IdSet(ids');
        FlattenAlongSorted(s', ids', keys);
        FlattenAlongSnocOld(s', ids', x, j, keys);
      } else {
        var front := keys[..last];
        assert forall a, b :: 0 <= a < b < last ==> front[a] < front[b] by {
          forall a, b | 0 <= a < b < last ensures front[a] < front[b] {
            assert front[a] == keys[a] && front[b] == keys[b];
          }
        }
        DropLastKey(keys, ids', j);
        FlattenAlongSorted(s', ids', front);
        FlattenAlongSnocNew(s', ids', x, j, keys);
      }
    }
  }

  /**
   * With non-decreasing ids, bucketing keeps the samples in order: read bin after
   * bin in ascending id order, the bins give back the sample list itself.
   */
  lemma FlattenBinsOfSorted(s: seq<Sample>, ids: seq<int>)
    requires |s| == |ids|
    requires forall i, j :: 0 <= i <= j < |ids| ==> ids[i] <= ids[j]
    ensures Flatten(BinsOf(s, ids)) == s
  {
    BinsOfIsBinsAlong(s, ids);
    AscendingKeysOfIds(ids);
    FlattenAlongSorted(s, ids, AscendingKeys(IdSet(ids)));
  }

  // ---------------------------------------------------------------------------
  // For any ids, the bins partition the samples

  /** The samples whose id lies in `keys`, in order. */
  function SelectIn(s: seq<Sample>, ids: seq<int>, keys: set<int>): seq<Sample>
    requires |s| == |ids|
  {
    if s == [] then []
    else
      var n := |s| - 1;
      SelectIn(s[..n], ids[..n], keys) + (if ids[n] in keys then [s[n]] else [])
  }

  /** Selecting by one more id adds exactly that id's samples. */
  lemma {:induction false} SelectInAdd(s: seq<Sample>, ids: seq<int>, keys: set<int>, k: int)
    requires |s| == |ids| && k !in keys
    ensures multiset(SelectIn(s, ids, keys + {k})) == multiset(SelectIn(s, ids, keys)) + multiset(Select(s, ids, k))
    decreases |s|
  {
    if s != [] {
      var n := |s| - 1;
      SelectInAdd(s[..n], ids[..n], keys, k);
    }
  }

  /** Selecting by every id that occurs keeps every sample. */
  lemma {:induction false} SelectInAll(s: seq<Sample>, ids: seq<int>, keys: set<int>)
    requires |s| == |ids|
    requires forall i :: 0 <= i < |ids| ==> ids[i] in keys
    ensures SelectIn(s, ids, keys) == s
    decreases |s|
  {
    if s != [] {
      var n := |s| - 1;
      SelectInAll(s[..n], ids[..n], keys);
      assert s == s[..n] + [s[n]];
    }
  }

  /** The bins along distinct keys hold exactly the samples whose ids are among those keys. */
  lemma {:induction false} FlattenBinsAlong(s: seq<Sample>, ids: seq<int>, keys: seq<int>)
    requires |s| == |ids|
    requires forall i, j :: 0 <= i < j < |keys| ==> keys[i] != keys[j]
    ensures multiset(Flatten(BinsAlong(s, ids, keys))) == multiset(SelectIn(s, ids, IdSet(keys)))
    decreases |keys|
  {
    if keys == [] {
      assert IdSet(keys) == {};
      SelectInNone(s, ids);
    } else {
      var n := |keys| - 1;
      var front := keys[..n];
      FlattenBinsAlong(s, ids, front);
      assert BinsAlong(s, ids, keys)[..n] == BinsAlong(s, ids, front);
      assert IdSet(keys) == IdSet(front) + {keys[n]};
      assert keys[n] !in IdSet(front);
      SelectInAdd(s, ids, IdSet(front), keys[n]);
    }
  }

  lemma {:induction false} SelectInNone(s: seq<Sample>, ids: seq<int>)
    requires |s| == |ids|
    ensures SelectIn(s, ids, {}) == []
    decreases |s|
  {
    if s != [] {
      SelectInNone(s[..|s| - 1], ids[..|ids| - 1]);
    }
  }

  /**
   * Whatever the ids, every sample lands in exactly one bin: the bins' samples,
   * taken together, are a permutation of the input.
   */
  lemma BinsPartitionSamples(s: seq<Sample>, ids: seq<int>)
    requires |s| == |ids|
    ensures multiset(Flatten(BinsOf(s, ids))) == multiset(s)
  {
    var keys := AscendingKeys(IdSet(ids));
    BinsOfIsBinsAlong(s, ids);
    AscendingKeysOfIds(ids);
    FlattenBinsAlong(s, ids, keys);
    SelectInAll(s, ids, IdSet(ids));
  }

  // ---------------------------------------------------------------------------
  // The bucketing loops

  /** `Select` over a prefix one sample longer. */
  lemma SelectPrefixStep(s: seq<Sample>, ids: seq<int>, idx: int, k: int)
    requires |s| == |ids| && 0 <= idx < |s|
    ensures Select(s[..idx + 1], ids[..idx + 1], k) == Select(s[..idx], ids[..idx], k) + (if ids[idx] == k then [s[idx]] else [])
  {
    assert s[..idx + 1] == s[..idx] + [s[idx]];
    assert ids[..idx + 1] == ids[..idx] + [ids[idx]];
    SelectSnoc(s[..idx], ids[..idx], s[idx], ids[idx], k);
  }

  /** An empty bin for each id. */
  function EmptyBins(keys: set<int>): (bins: map<int, Bin>)
    ensures bins.Keys == keys
  {
    map k | k in keys :: Bin(k, [])
  }

  /** The ids of a set, listed in the (ascending) order in which the set is visited. */
  method VisitOrder(ids: set<int>) returns (keys: seq<int>)
    ensures IdSet(keys) == ids
  {
    keys := SortedKeys(ids);
    assert forall i :: 0 <= i < |keys| ==> keys[i] in keys;
  }

  /**
   * `for part_id in set(part_ids): bins[part_id] = Bin(bin_id=part_id)`: a fresh,
   * empty bin per id, the set being visited in ascending order.
   */
  method CreateBins(bins0: map<int, Bin>, ids: set<int>) returns (bins: map<int, Bin>)
    ensures bins == bins0 + EmptyBins(ids)
  {
    var keys := VisitOrder(ids);
    bins := bins0;
    for i := 0 to |keys|
      invariant bins == bins0 + EmptyBins(IdSet(keys[..i]))
    {
      assert IdSet(keys[..i + 1]) == IdSet(keys[..i]) + {keys[i]} by {
        assert keys[..i + 1] == keys[..i] + [keys[i]];
      }
      assert bins0 + EmptyBins(IdSet(keys[..i]) + {keys[i]}) == bins[keys[i] := Bin(keys[i], [])];
      bins := bins[keys[i] := Bin(keys[i], [])];
    }
    assert keys[..|keys|] == keys;
  }

  /**
   * `for idx, part_id in enumerate(part_ids): bins[part_id].add_sample(...)`: each
   * sample is appended to the bin of its id, and bins of other ids are untouched.
   */
  method RouteSamples(bins0: map<int, Bin>, s: seq<Sample>, ids: seq<int>) returns (bins: map<int, Bin>)
    requires |s| == |ids|
    requires forall k :: k in IdSet(ids) ==> k in bins0 && bins0[k] == Bin(k, [])
    ensures bins.Keys == bins0.Keys
    ensures forall k :: k in IdSet(ids) ==> bins[k] == Bin(k, Select(s, ids, k))
    ensures forall k :: k in bins0 && k !in IdSet(ids) ==> bins[k] == bins0[k]
  {
    bins := bins0;
    for idx := 0 to |ids|
      invariant bins.Keys == bins0.Keys
      invariant forall k :: k in IdSet(ids) ==> bins[k] == Bin(k, Select(s[..idx], ids[..idx], k))
      invariant forall k :: k in bins0 && k !in IdSet(ids) ==> bins[k] == bins0[k]
    {
      var k := ids[idx];
      forall k' ensures Select(s[..idx + 1], ids[..idx + 1], k') == Select(s[..idx], ids[..idx], k') + (if k == k' then [s[idx]] else []) {
        SelectPrefixStep(s, ids, idx, k');
      }
      bins := bins[k := Bin(k, bins[k].samples + [s[idx]])];
    }
    assert s[..|s|] == s && ids[..|ids|] == ids;
  }

  /**
   * The bucketing of `fit` on a dictionary that may already hold bins: the ids of
   * this partition get fresh bins holding exactly their samples, and every other
   * entry is left as it was.
   */
  method Bucket(bins0: map<int, Bin>, s: seq<Sample>, ids: seq<int>) returns (bins: map<int, Bin>)
    requires |s| == |ids|
    ensures bins == bins0 + BinsMap(s, ids)
  {
    var empty := CreateBins(bins0, IdSet(ids));
    assert forall k :: k in IdSet(ids) ==> k in empty && empty[k] == Bin(k, []);
    bins := RouteSamples(empty, s, ids);
    assert bins == bins0 + BinsMap(s, ids) by {
      var target := bins0 + BinsMap(s, ids);
      assert bins.Keys == target.Keys;
      assert forall k :: k in bins ==> bins[k] == target[k];
    }
  }
}
