# pyModelCalibrate in Dafny

A Dafny model of the core of pyModelCalibrate, a small Python library that
calibrates classifier scores. Probabilities are `real`s, labels are `int`s, and
every Python exception the model keeps is a `Failure` or `Fail` value that names
its kind (`CalibError`). The exceptions it does not keep are listed under
"## Left out".

The core, file by file:

- **model/utils.py**: `strict_lower_bound`, a binary search for the rightmost
  element strictly below a query. It is modelled as a method with loop
  invariants (`Lookup.StrictLowerBound`) and proved equal to a reference scan
  (`Lookup.Predecessor`) on ascending input.
- **model/partition.py**: the three partitioners. Each one sorts the caller's
  list in place, which is modelled on an `array<Sample>` against a stable sort
  specification (`ProbSort.SortByProb`). Each then assigns partition ids:
  - mass: `i / partition_size`;
  - count: as written, and corrected;
  - width: `(p - min) / width`.
- **model/isotonic_regression_calibrator.py**: the `IsotonicRegressionCalibrator`
  class.
  - `check_errors` validates the inputs.
  - `fit` partitions the samples, bucketing creates one bin per partition id
    (`Bins`), pool-adjacent-violators smoothing runs over a stack (`Smoothing`),
    and `fit` appends each merged bin to the lookup table `low_array`/`calib_array`.
  - `find_bin_id`, `predict` and `get_model` read the table.
  - `Bin` is imported from model/utils.py, which defines no `Bin`. It is modelled
    by its use: a sample list with `low_prob` (minimum probability), `avg_prob`
    (mean probability), `calibrated_score` (mean label) and `merge` (the union
    of the sample lists).
- **model/histogram_binning.py**: the parts that are complete:
  - the `bin` container (`Histogram.Bin`), which range-checks each sample it takes;
  - the calibrator's length check and sample pairing;
  - the copying sort that starts its `fit`.
- **metric/ece.py**: the intended aggregation (`Ece.ComputeEce`). It partitions,
  buckets by id, adds one term per bin and divides by the sample count.
  - The term is the library's own, `|positive-label count - mean probability| ** 2`.
  - `Ece.WeightedEce` is a **correction**, not the library's metric: the usual
    sample-weighted `sum (n_b / n) * |mean label - mean probability|`. It stands
    beside the library's term, and `Ece.TermMixesCountAndRate` shows where the
    two differ.

Dictionaries keyed by partition id are `map<int, Bin>`. They are visited in
ascending id order (`Keys.SortedKeys`), which is an assumption about Python's
`set`/`dict` iteration.

## Model

| member | source | states |
|---|---|---|
| Lookup.StrictLowerBound | src/pyModelCalibrate/model/utils.py:2-16 | For any sequence, the result lies in [-1, len-1], the element at the result is below `x` and the next one is not. On ascending input, every element up to the result is below `x`, every later one is not, and the result equals `Predecessor`. |
| Lookup.Predecessor | src/pyModelCalibrate/model/utils.py:2-16 | Reference definition: the rightmost index whose element is strictly below `x`, or -1. It is in range, and no later element is below `x`. |
| Lookup.PredecessorMonotone | src/pyModelCalibrate/model/utils.py:2-16 | A larger query never gets a smaller predecessor index. |
| Samples.Zip | src/pyModelCalibrate/metric/ece.py:8 | Pairing stops at the shorter list, and the i-th pair is `(probs[i], labels[i])`. |
| Samples.ZipUnzip | src/pyModelCalibrate/model/partition.py:28 | Unzipping a sample list into probabilities and labels and zipping them back gives the list again. |
| Samples.Probs | src/pyModelCalibrate/model/partition.py:28 | Unzipping keeps the order: one probability per sample, the i-th being the i-th sample's. |
| Samples.Labels | src/pyModelCalibrate/model/partition.py:28 | Unzipping keeps the order: one label per sample, the i-th being the i-th sample's. |
| Samples.Trunc | src/pyModelCalibrate/model/partition.py:30 | Python's `int()` on a real truncates toward zero: for a non-negative argument it is the floor, and anything strictly between -1 and 1 becomes 0. |
| Samples.TruncOfQuotient | src/pyModelCalibrate/model/partition.py:30 | `int(i / k)` equals the floored integer quotient for `i >= 0` and `k > 0`. |
| Samples.SumLabels | src/pyModelCalibrate/metric/ece.py:35 | Definition of `sum(bin.labels)`: the sum of the labels, the last one added to the sum of the rest. |
| Samples.SumLabelsBounds | src/pyModelCalibrate/metric/ece.py:35 | With 0/1 labels the label sum counts the positives, so it lies between 0 and the number of samples. |
| Samples.SumProbs | src/pyModelCalibrate/metric/ece.py:36 | Definition of the probability sum behind `avg_prob`: the last probability added to the sum of the rest. |
| Samples.SumProbsBounds | src/pyModelCalibrate/metric/ece.py:36 | With every probability in [0, 1], their sum lies between 0 and the number of samples. |
| ProbSort.SortByProb | src/pyModelCalibrate/model/partition.py:27 | The stable sort by probability that `list.sort` and `sorted` perform, ascending or, when `decreasing`, descending. It keeps the length; order, permutation and stability are the lemmas below. |
| ProbSort.SortIsSorted | src/pyModelCalibrate/model/partition.py:27 | The sort leaves keys non-decreasing: probabilities ascend, or descend when `decreasing`. |
| ProbSort.SortPermutes | src/pyModelCalibrate/model/partition.py:27 | The sort is a permutation: the multiset of samples is unchanged. |
| ProbSort.SortIsStable | src/pyModelCalibrate/model/partition.py:27 | Samples of equal probability keep their relative order, as in Python's stable sort. |
| ProbSort.SortIsIdempotent | src/pyModelCalibrate/model/partition.py:27 | Sorting a sorted list changes nothing. |
| Partition.SortInPlace | src/pyModelCalibrate/model/partition.py:27 | The caller's array now holds the stable sort of its old contents. |
| Partition.UniformMassPartitions | src/pyModelCalibrate/model/partition.py:9-32 | Sorts the caller's array in place. The result is NothingToUnpack on an empty list, ZeroDivision for a zero size, and otherwise the unzipped sorted samples with ids `int(i / partition_size)`. |
| Partition.MassIds | src/pyModelCalibrate/model/partition.py:30 | One id per sample, the i-th being `int(i / partition_size)`; its properties are the lemmas below. |
| Partition.MassPartition | src/pyModelCalibrate/model/partition.py:9-32 | What the mass partitioner returns: it fails exactly on an empty list (NothingToUnpack, checked first) or a zero size (ZeroDivision). On success, zipping the result back gives the sorted samples, there is one id per sample, and for a positive size the ids start at 0 and never decrease. |
| Partition.MassIdsAreQuotients | src/pyModelCalibrate/model/partition.py:30 | For an integer size, `int(i / partition_size)` is the floored quotient. |
| Partition.MassIdsNonDecreasing | src/pyModelCalibrate/model/partition.py:30 | With a positive size, mass ids start at 0 and never decrease. |
| Partition.QuotientIdsContiguous | src/pyModelCalibrate/model/partition.py:30 | Quotient ids start at 0, never decrease, and step by 0 or 1, so they are contiguous. |
| Partition.QuotientIdsGroupSizes | src/pyModelCalibrate/model/partition.py:30 | Every id but the last is held by exactly `partition_size` samples, and the last by between 1 and `partition_size`. |
| Partition.QuotientIdsBounded | src/pyModelCalibrate/model/partition.py:30 | Every quotient id lies between 0 and the last id `(n - 1) / k`. |
| Partition.UniformNumPartitions | src/pyModelCalibrate/model/partition.py:35-58 | The count partitioner as written: it sorts in place, gives NothingToUnpack on an empty list, and otherwise uses the as-written ids. |
| Partition.CountIdsAsWritten | src/pyModelCalibrate/model/partition.py:56 | The id formula as written, one id per sample, `int(int(i / n) * partition_num)`. |
| Partition.CountPartitionAsWritten | src/pyModelCalibrate/model/partition.py:35-58 | What the count partitioner as written returns: it fails exactly on an empty list (NothingToUnpack). On success, zipping the result back gives the sorted samples and every id is 0. |
| Partition.CountIdsAsWrittenAllZero | src/pyModelCalibrate/model/partition.py:56 | As written, every id is 0 whatever `n` and `partition_num`, because `i < n`. |
| Partition.UniformNumPartitionsCorrected | src/pyModelCalibrate/model/partition.py:35-58 | Correction: the count partitioner with ids `i / ceil(n / partition_num)`. It also fails with InvalidParameter for a non-positive `partition_num`, a check the library does not make. |
| Partition.CountIds | src/pyModelCalibrate/model/partition.py:56 | Correction: one id per sample, `i / ceil(n / partition_num)`. |
| Partition.CountPartition | src/pyModelCalibrate/model/partition.py:35-58 | Correction: it fails exactly on an empty list (NothingToUnpack, checked first) or a non-positive `partition_num` (InvalidParameter, which the library does not raise). On success, zipping the result back gives the sorted samples, and the ids start at 0, never decrease and stay below `partition_num`. |
| Partition.CountGroupSize | src/pyModelCalibrate/model/partition.py:56 | Correction: the group size is at least 1, and `partition_num` groups of it cover all `n` samples. |
| Partition.CountIdsBelowPartitionNum | src/pyModelCalibrate/model/partition.py:56 | Correction: ids start at 0, never decrease, step by 0 or 1, and stay below `partition_num`. |
| Partition.CountSchemeCounterexample | src/pyModelCalibrate/model/partition.py:56 | For 4 samples and `partition_num` 2, the ids are [0,0,0,0] as written and [0,0,1,1] corrected. |
| Partition.UniformWidthPartitions | src/pyModelCalibrate/model/partition.py:61-93 | Sorts in place. The result is NothingToUnpack on an empty list, ZeroDivision for a zero width, and otherwise ids `int((p - min) / width)`. |
| Partition.WidthIds | src/pyModelCalibrate/model/partition.py:88-91 | One id per sample, the i-th being `int((p_i - min) / width)` with the minimum taken over all the probabilities. |
| Partition.WidthPartition | src/pyModelCalibrate/model/partition.py:61-93 | What the width partitioner returns: it fails exactly on an empty list (NothingToUnpack, checked first) or a zero width (ZeroDivision). On success, zipping the result back gives the sorted samples, and with a positive width each sample lies in the bucket `[min + id*width, min + (id+1)*width)` its id names. |
| Partition.MinProb | src/pyModelCalibrate/model/partition.py:88 | `min(sorted_probs)` is one of the probabilities and not above any of them. |
| Partition.WidthMinimumGetsZero | src/pyModelCalibrate/model/partition.py:88-91 | A sample at the minimum probability gets id 0. |
| Partition.WidthIdsLocateSamples | src/pyModelCalibrate/model/partition.py:91 | With a positive width, sample `i` lies in bucket `[min + id*width, min + (id+1)*width)` with `id >= 0`. |
| Partition.WidthIdsNonDecreasing | src/pyModelCalibrate/model/partition.py:91 | With a positive width and ascending probabilities, ids start at 0 and never decrease. |
| Partition.WidthIdsMaySkip | src/pyModelCalibrate/model/partition.py:91 | Width ids may skip values: probabilities 0 and 1 with width 1/4 get ids 0 and 4. |
| Partition.ParamKey | src/pyModelCalibrate/model/isotonic_regression_calibrator.py:78-86 | The parameter each scheme reads is one of the three accepted keyword names. |
| Partition.PartitionBy | src/pyModelCalibrate/model/isotonic_regression_calibrator.py:76-86 | Corrected dispatch, used by `fit` and the metric: it fails exactly on a missing parameter (KeyError), an empty list, a zero mass size or width, or (through the corrected count scheme, not the library) a non-positive `partition_num`. On success it returns the ascending stable sort, unzipped, and one id per sample. |
| Partition.PartitionByAsWritten | src/pyModelCalibrate/model/isotonic_regression_calibrator.py:76-86 | The library's dispatch: it fails exactly on a missing parameter, an empty list, or a zero mass size or width, and never on `partition_num`. On success it returns the ascending stable sort, unzipped, with one id per sample. |
| Partition.CountAsWrittenIsOnePartition | src/pyModelCalibrate/model/partition.py:56 | With the library's `count` scheme every non-empty list is partitioned, and every sample gets id 0, for any `partition_num`. |
| Partition.SortedProbsAscending | src/pyModelCalibrate/model/partition.py:27-28 | After the ascending sort, the returned probabilities ascend. |
| Partition.PartitionByWellFormed | src/pyModelCalibrate/model/partition.py:27-28 | On success the returned pairs are a permutation of the input and the probabilities ascend. With a positive parameter, ids start at 0 and never decrease. |
| Partition.PartitionInPlace | src/pyModelCalibrate/model/isotonic_regression_calibrator.py:76-86 | The calibrator's sample list is sorted in place unless the parameter is missing, and the result is `PartitionBy` of the old list. |
| Keys.AscendingKeys | src/pyModelCalibrate/model/isotonic_regression_calibrator.py:89 | The ids of a set listed strictly ascending, each exactly once. |
| Keys.SortedKeys | src/pyModelCalibrate/model/isotonic_regression_calibrator.py:89 | A loop that repeatedly takes the largest remaining id produces `AscendingKeys`. |
| Bins.LowProb | src/pyModelCalibrate/model/isotonic_regression_calibrator.py:105 | `low_prob` is a probability of the bin and not above any of them. |
| Bins.AvgProb | src/pyModelCalibrate/metric/ece.py:36 | Definition of `avg_prob`: the mean probability of a non-empty bin. |
| Bins.AvgProbIsProbability | src/pyModelCalibrate/metric/ece.py:36 | A bin whose probabilities lie in [0, 1] has its mean probability in [0, 1]. |
| Bins.CalibratedScore | src/pyModelCalibrate/model/isotonic_regression_calibrator.py:97-99 | Definition of `calibrated_score`: the mean label of a non-empty bin. |
| Bins.CalibratedScoreIsProbability | src/pyModelCalibrate/model/isotonic_regression_calibrator.py:97-99 | With 0/1 labels a bin's calibrated score, its fraction of positives, lies in [0, 1]. |
| Bins.Merge | src/pyModelCalibrate/model/isotonic_regression_calibrator.py:67 | `merge` keeps the current bin's id, and its samples are the multiset union of both bins'. |
| Bins.SumLabelsConcat | src/pyModelCalibrate/model/isotonic_regression_calibrator.py:67 | The label sum of two sample lists joined is the sum of their label sums, so a merged bin's score pools both bins. |
| Bins.SumProbsConcat | src/pyModelCalibrate/model/isotonic_regression_calibrator.py:67 | The probability sum of two sample lists joined is the sum of their probability sums. |
| Bins.MergedScoreBetween | src/pyModelCalibrate/model/isotonic_regression_calibrator.py:66-67 | A merged bin's score lies between the two scores: strictly between when they differ, equal when they agree. |
| Bins.MergedLowProb | src/pyModelCalibrate/model/isotonic_regression_calibrator.py:67 | A merged bin's `low_prob` is the smaller of the two. |
| Bins.Select | src/pyModelCalibrate/model/isotonic_regression_calibrator.py:93-95 | A bin receives exactly as many samples as there are ids equal to its own, each from a position with that id. |
| Bins.BinsMap | src/pyModelCalibrate/model/isotonic_regression_calibrator.py:89-95 | One bin per distinct id; each carries its id and at least one sample. |
| Bins.OrderedBinsAt | src/pyModelCalibrate/model/isotonic_regression_calibrator.py:98 | The i-th bin visited is the bin of the i-th smallest id. |
| Bins.OrderedBins | src/pyModelCalibrate/model/isotonic_regression_calibrator.py:98 | Visiting a dictionary of bins in ascending id order gives one bin per id, each one of the dictionary's bins, all non-empty when the dictionary's are. |
| Bins.BinsOf | src/pyModelCalibrate/model/isotonic_regression_calibrator.py:89-98 | The bins of one partition, visited in ascending id order, are all non-empty. |
| Bins.BinsOfOneId | src/pyModelCalibrate/model/isotonic_regression_calibrator.py:89-95 | When every sample carries id 0 there is exactly one bin, with id 0, holding all the samples in order. |
| Bins.FlattenBinsOfSorted | src/pyModelCalibrate/model/isotonic_regression_calibrator.py:89-95 | With non-decreasing ids, the bins read in id order give back the sorted samples in order. |
| Bins.BinsPartitionSamples | src/pyModelCalibrate/model/isotonic_regression_calibrator.py:89-95 | For any ids, the bins' samples taken together are a permutation of the input: nothing is lost or duplicated. |
| Bins.VisitOrder | src/pyModelCalibrate/model/isotonic_regression_calibrator.py:89 | The visit order lists exactly the ids of the set. |
| Bins.CreateBins | src/pyModelCalibrate/model/isotonic_regression_calibrator.py:89-91 | Each id of the set gets a fresh, empty bin with that id; other entries are kept. |
| Bins.RouteSamples | src/pyModelCalibrate/model/isotonic_regression_calibrator.py:93-95 | Each sample is appended to the bin of its id, and bins of other ids are untouched. |
| Bins.Bucket | src/pyModelCalibrate/model/isotonic_regression_calibrator.py:89-95 | The dictionary afterwards is the old one overridden by one bin per id of this partition, holding exactly that id's samples. |
| Smoothing.Smooth | src/pyModelCalibrate/model/isotonic_regression_calibrator.py:57-72 | The intended `monotonic_smoothing` over bins in order, one push after another: the stack holds non-empty bins, no more of them than the input, and at least one for a non-empty input. Ordering, sample preservation and idempotence are the lemmas below. |
| Smoothing.PushMerge | src/pyModelCalibrate/model/isotonic_regression_calibrator.py:63-70 | The intended inner loop leaves a non-empty stack of non-empty bins, at most one bin longer. |
| Smoothing.PushMergeKeepsOrder | src/pyModelCalibrate/model/isotonic_regression_calibrator.py:66-70 | Pushing onto a stack whose scores ascend keeps them ascending. |
| Smoothing.PushMergeKeepsSamples | src/pyModelCalibrate/model/isotonic_regression_calibrator.py:66-70 | Pushing neither loses nor duplicates samples: the stack's samples gain exactly the current bin's. |
| Smoothing.SmoothIsMonotone | src/pyModelCalibrate/model/isotonic_regression_calibrator.py:57-72 | After smoothing, scores read bottom to top never decrease, and the stack holds exactly the input samples in order. |
| Smoothing.SmoothOfMonotoneIsIdentity | src/pyModelCalibrate/model/isotonic_regression_calibrator.py:57-72 | Bins whose scores already ascend are left as they are. |
| Smoothing.SmoothIsIdempotent | src/pyModelCalibrate/model/isotonic_regression_calibrator.py:57-72 | Smoothing twice equals smoothing once. |
| Smoothing.LowProbsAscending | src/pyModelCalibrate/model/isotonic_regression_calibrator.py:104-105 | When the bins' samples, read bin after bin, ascend in probability, the `low_prob`s ascend. |
| Smoothing.DrainAsWritten | src/pyModelCalibrate/model/isotonic_regression_calibrator.py:63-68 | The inner loop as written, with `top_bin` read once: when it succeeds, the stack holds non-empty bins. `DrainAsWrittenFails` states when it fails. |
| Smoothing.SmoothAsWritten | src/pyModelCalibrate/model/isotonic_regression_calibrator.py:57-72 | `monotonic_smoothing` as written, over bins in order: when it succeeds, the stack holds non-empty bins. `SmoothAsWrittenOnlyAcceptsMonotone` states exactly when it succeeds. |
| Smoothing.DrainAsWrittenFails | src/pyModelCalibrate/model/isotonic_regression_calibrator.py:63-68 | As written, once the stale `top_bin` scores above the current bin the loop pops until the stack is empty and raises IndexError. |
| Smoothing.SmoothAsWrittenOnlyAcceptsMonotone | src/pyModelCalibrate/model/isotonic_regression_calibrator.py:57-72 | As written, smoothing returns the bins unchanged when their scores ascend and raises IndexError otherwise. |
| Smoothing.SmoothingCounterexample | src/pyModelCalibrate/model/isotonic_regression_calibrator.py:63-68 | Two bins scoring 1 then 0: as written this raises IndexError, while the intended loop pools them into one bin scoring 1/2. |
| Isotonic.Validate | src/pyModelCalibrate/model/isotonic_regression_calibrator.py:24-52 | Validation passes exactly when the scheme is mass/width/count, the keyword names are accepted, the lengths agree, the list is non-empty and every probability is in [0,1]. An unknown scheme is reported before anything else, and a length mismatch before the emptiness and range checks. Labels are only type-checked. |
| Isotonic.IsotonicRegressionCalibrator.CheckErrors | src/pyModelCalibrate/model/isotonic_regression_calibrator.py:24-52 | The loops over keyword names and probabilities return exactly `Validate`. |
| Isotonic.IsotonicRegressionCalibrator.Create | src/pyModelCalibrate/model/isotonic_regression_calibrator.py:8-21 | Construction fails exactly when validation fails, with its error. Otherwise the samples are paired in order and there are no bins and an empty table. |
| Isotonic.IsotonicRegressionCalibrator.constructor | src/pyModelCalibrate/model/isotonic_regression_calibrator.py:13-21 | After validation: scheme and parameters are stored, the samples are paired, and bins and table are empty. |
| Isotonic.IsotonicRegressionCalibrator.MonotonicSmoothing | src/pyModelCalibrate/model/isotonic_regression_calibrator.py:54-72 | The stack loop, visiting bins in id order, returns `Smooth` of the bins. Its scores ascend and it holds all the bins' samples in order. |
| Isotonic.IsotonicRegressionCalibrator.VisitInOrder | src/pyModelCalibrate/model/isotonic_regression_calibrator.py:57-72 | The outer loop over the bins in ascending id order computes `Smooth` of those bins. |
| Isotonic.IsotonicRegressionCalibrator.PushMerging | src/pyModelCalibrate/model/isotonic_regression_calibrator.py:63-70 | The inner while loop, with the top re-read after every pop, computes `PushMerge`. |
| Isotonic.IsotonicRegressionCalibrator.AppendTable | src/pyModelCalibrate/model/isotonic_regression_calibrator.py:104-106 | The table grows by each merged bin's `low_prob` and score, in stack order. |
| Isotonic.IsotonicRegressionCalibrator.Fit | src/pyModelCalibrate/model/isotonic_regression_calibrator.py:74-106 | The samples are sorted in place. A partition error leaves bins and table unchanged. Otherwise bins gain one bin per id holding that id's samples, and the table grows by the smoothed bins' `low_prob`s and scores, in equal number. |
| Isotonic.FitTable | src/pyModelCalibrate/model/isotonic_regression_calibrator.py:74-106 | The table a fit on a fresh calibrator builds from one partition: the bins of that partition, smoothed in ascending id order, all non-empty. |
| Isotonic.FreshFitScoresAscend | src/pyModelCalibrate/model/isotonic_regression_calibrator.py:74-106 | For any successful partition, whatever the parameter, the scores of the fresh table never decrease. |
| Isotonic.FreshFitIsMonotone | src/pyModelCalibrate/model/isotonic_regression_calibrator.py:74-106 | For a fresh fit with a positive parameter, the table's lowest probabilities and scores both ascend, and its bins hold the sorted samples in order. |
| Isotonic.AsWrittenCountFitIsOneRow | src/pyModelCalibrate/model/isotonic_regression_calibrator.py:74-106 | With the library's default `count` scheme as written, a fit builds one bin holding all the sorted samples, so the table has one row (minimum probability, mean label), for any `partition_num`. |
| Isotonic.IsotonicRegressionCalibrator.CreateAndFit | src/pyModelCalibrate/model/isotonic_regression_calibrator.py:8-106 | Creating and fitting a calibrator succeeds exactly when validation passes and the partition succeeds; otherwise it reports the validation error, then the partition error. On success its `low_array`/`calib_array` are the fresh table's, `calib_array` never decreases, and with a positive parameter `low_array` never decreases. |
| Isotonic.IsotonicRegressionCalibrator.FitFresh | src/pyModelCalibrate/model/isotonic_regression_calibrator.py:74-106 | `fit` on a calibrator with no bins and an empty table: it fails exactly when the partition does, with that error. Otherwise the table is `FitTable` of the partition, its scores never decrease, and with a positive parameter its lowest probabilities never decrease. |
| Isotonic.Calibrate | src/pyModelCalibrate/model/isotonic_regression_calibrator.py:108-115 | Lookup specification: IndexError exactly on an empty table, otherwise one of the table's scores. |
| Isotonic.CalibrateMonotone | src/pyModelCalibrate/model/isotonic_regression_calibrator.py:108-115 | With ascending scores, a larger query never gets a smaller calibrated probability. |
| Isotonic.CalibrateAtEnds | src/pyModelCalibrate/model/isotonic_regression_calibrator.py:111-115 | A query at or below every `low_prob` gets `calib_array[0]`; one above the last `low_prob` gets the last score. |
| Isotonic.IsotonicRegressionCalibrator.FindBinId | src/pyModelCalibrate/model/isotonic_regression_calibrator.py:108-115 | IndexError exactly on an empty table, otherwise a score from the table; with ascending `low_array` it equals `Calibrate`. |
| Isotonic.PredictAll | src/pyModelCalibrate/model/isotonic_regression_calibrator.py:117-120 | One output per query, each the lookup of that query; IndexError exactly when there are queries and the table is empty. |
| Isotonic.PredictMonotone | src/pyModelCalibrate/model/isotonic_regression_calibrator.py:117-120 | With ascending scores, predictions are monotone in the queries. |
| Isotonic.IsotonicRegressionCalibrator.Predict | src/pyModelCalibrate/model/isotonic_regression_calibrator.py:117-120 | IndexError exactly on queries with an empty table. On success there is one output per query, each one of the table's scores. With ascending `low_array` it equals `PredictAll`. |
| Isotonic.IsotonicRegressionCalibrator.GetModel | src/pyModelCalibrate/model/isotonic_regression_calibrator.py:122-123 | Returns the two halves of the table, of equal length. |
| Histogram.Bin.constructor | src/pyModelCalibrate/model/histogram_binning.py:4-7 | A new bin has the given id and no samples. |
| Histogram.Bin.CheckValues | src/pyModelCalibrate/model/histogram_binning.py:10-21 | A sample is accepted exactly when its probability is in [0,1]; otherwise the error is out-of-bound. |
| Histogram.Bin.AddSample | src/pyModelCalibrate/model/histogram_binning.py:24-28 | An accepted sample is appended at the end with earlier samples unchanged. A rejected one leaves the bin unchanged. Every probability in a bin stays in [0,1]. |
| Histogram.HistogramBinningCalibrator.CheckValues | src/pyModelCalibrate/model/histogram_binning.py:44-49 | Passes exactly when the two lists have equal length; otherwise a size mismatch. |
| Histogram.HistogramBinningCalibrator.constructor | src/pyModelCalibrate/model/histogram_binning.py:32-40 | The i-th sample pairs `probs[i]` with `labels[i]`. |
| Histogram.HistogramBinningCalibrator.Create | src/pyModelCalibrate/model/histogram_binning.py:32-49 | Raises exactly on unequal lengths. Otherwise the i-th sample is `(probs[i], labels[i])`. |
| Histogram.HistogramBinningCalibrator.SortedSamples | src/pyModelCalibrate/model/histogram_binning.py:54 | A new list: the samples ascending by probability, a permutation of them, with ties in their original order. The calibrator's list is untouched. |
| Ece.EceTerm | src/pyModelCalibrate/metric/ece.py:34-37 | A bin's term is non-negative, and zero exactly when its positive-label count equals its mean probability. |
| Ece.SquaredGap | src/pyModelCalibrate/metric/ece.py:37 | `abs(a - b) ** 2` is non-negative and zero exactly when `a == b`. |
| Ece.TermSum | src/pyModelCalibrate/metric/ece.py:32-37 | The accumulated sum of the bins' terms, non-negative. |
| Ece.TermSumZeroIff | src/pyModelCalibrate/metric/ece.py:32-37 | The sum of terms is zero exactly when every bin's term is. |
| Ece.Average | src/pyModelCalibrate/metric/ece.py:39 | The term sum divided by the sample count is non-negative, and zero exactly when the term sum is. |
| Ece.EceOf | src/pyModelCalibrate/metric/ece.py:32-39 | The metric of one partition, its bins in ascending id order averaged over the samples, is non-negative. |
| Ece.EceSpec | src/pyModelCalibrate/metric/ece.py:7-39 | The metric fails exactly when the partition does; otherwise it is non-negative. |
| Ece.EceZeroIff | src/pyModelCalibrate/metric/ece.py:35-39 | The metric is zero exactly when every bin's positive-label count equals its mean probability. |
| Ece.ComputeEce | src/pyModelCalibrate/metric/ece.py:7-39 | The loops (bucket by id, add each bin's term, divide by the sample count) compute `EceSpec`, so the result is non-negative. |
| Ece.AddTerms | src/pyModelCalibrate/metric/ece.py:32-37 | The loop over the bins in ascending id order adds up exactly `TermSum` of those bins. |
| Ece.WeightedEce | src/pyModelCalibrate/metric/ece.py:35-37 | Correction, not the library's metric: the sample-weighted gap sum is non-negative. |
| Ece.WeightedEceZeroIff | src/pyModelCalibrate/metric/ece.py:35-37 | Correction: the weighted metric is zero exactly when every bin's mean label equals its mean probability. |
| Ece.TermMixesCountAndRate | src/pyModelCalibrate/metric/ece.py:35-37 | A perfectly calibrated bin (probabilities 1/2, one positive of two) has library term 1/4 but weighted term 0. |

## Left out

- model/platt_scaling.py is not part of this model. It wraps a floating-point logistic regression from an external library.
- IEEE floating point: probabilities are exact reals, and Python's `int()` is modelled as truncation toward zero (`Samples.Trunc`).
- `isinstance` checks, and the difference between `AssertionError` and `ValueError`. Dafny's types cover the former; the latter is kept only as the error kind.
- The `ImportError` that model/isotonic_regression_calibrator.py:3 raises is not modelled. It imports `Bin` from model/utils.py, which defines only `strict_lower_bound`, so as written the calibrator module cannot be imported. The model supplies `Bin` by its use (`Bins`).
- Default arguments are not modelled. `IsotonicRegressionCalibrator.Create` and `HistogramBinningCalibrator.Create` take the scheme explicitly, so the defaults `partition_scheme='count'` (model/isotonic_regression_calibrator.py:8) and `partition_scheme='equal-impression'` (model/histogram_binning.py:32) are left to the caller.
- Isotonic.IsotonicRegressionCalibrator.FindBinId: modelled as an ordinary method. As declared (`@staticmethod` taking `self`), `self.find_bin_id(prob)` binds `prob` to `self` and lacks an argument, so `predict` would raise `TypeError` on every non-empty query list.
- Isotonic.IsotonicRegressionCalibrator.FindBinId: the result is tied to `Calibrate` only for an ascending `low_array`. For other tables the binary search still returns a boundary index (`StrictLowerBound`), but not necessarily the rightmost one.
- Isotonic.IsotonicRegressionCalibrator.MonotonicSmoothing: dictionaries and sets are visited in ascending id order. Python's order is hash and insertion order, which for small non-negative ids is usually, but not by contract, ascending.
- Isotonic.IsotonicRegressionCalibrator.Fit: aliasing is not modelled. In Python, `merge` mutates bin objects that `self.bins` still holds, so after `fit` some dictionary entries hold merged samples. In the model `bins` holds the bucketed, unmerged bins, and a second `fit` smooths those. Bins left from an earlier fit with ids absent from the new partition are kept and smoothed again, as in the source.
- Isotonic.IsotonicRegressionCalibrator.Fit: `compute_calibrated_score` (a cached statistic of `Bin`, which no module of the library defines) is the pure function `Bins.CalibratedScore`.
- Bins.Merge: the order of samples inside a merged bin is not known, because no module of the library defines `Bin`. The model puts the absorbed samples first; no statistic depends on the order.
- Partition.CountIdsAsWritten: Python multiplies by `partition_num` outside `int()`, so a real `partition_num` gives real ids `0.0`. The model truncates the product, which changes no value.
- Partition.PartitionBy: the count scheme in `fit` and in the metric uses the corrected id formula (see Findings). The correction also rejects a non-positive `partition_num` with InvalidParameter; the library never fails on it. The library's dispatch is `Partition.PartitionByAsWritten`. Under it, `count` puts all samples in one bin and the table has one row (`Isotonic.AsWrittenCountFitIsOneRow`).
- Isotonic.IsotonicRegressionCalibrator.Predict: for a non-ascending `low_array`, each output is only stated to be one of `calib_array`'s scores, not which one. A second `fit` appending to the table, or a negative size or width, can give such a table.
- Ece.ComputeEce: models the intended wiring. As written, `ece.py` imports partition functions and `Bin` from a module that defines none of them, indexes `bins = []` like a dictionary, and passes the keyword dictionary itself as the parameter. The model reads the scheme's parameter from the keyword arguments and buckets into a dictionary. The discarded `sorted(samples, ...)` has no effect and is not modelled. `sum(bin.labels)` is taken as the sum of the bin's labels.
- HistogramBinningCalibrator.fit after the sort (it calls an undefined `get_partition`) is not part of this model. The one-argument `isinstance(...)` calls in `bin.check_values` are modelled as the intended type check, which Dafny's typing makes vacuous, followed by the range check.
- Termination and resource bounds of Python are not modelled.

## Findings

| source | as written | input that shows it | evidently intended | confidence | as-written member | corrected member |
|---|---|---|---|---|---|---|
| src/pyModelCalibrate/model/partition.py:56 | `int(_iter / len(samples)) * partition_num` is 0 for every `_iter < len(samples)` | 4 samples, `partition_num` 2: ids [0, 0, 0, 0] | `partition_num` groups of `ceil(n / partition_num)` consecutive samples: ids [0, 0, 1, 1] | high (not executed) | Partition.CountIdsAsWrittenAllZero | Partition.CountIdsBelowPartitionNum |
| src/pyModelCalibrate/model/isotonic_regression_calibrator.py:63-68 | `top_bin` is read once before the `while`, so the loop keeps comparing against a popped bin and pops an empty stack | bins with samples [(0.1, 1)] and [(0.2, 0)] (scores 1 then 0): `IndexError` | re-read the top after each pop and stop on an empty stack: one pooled bin scoring 1/2 | high (not executed) | Smoothing.SmoothAsWrittenOnlyAcceptsMonotone | Smoothing.SmoothIsMonotone |
