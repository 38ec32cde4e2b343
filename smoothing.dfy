/**
 * `monotonic_smoothing` (isotonic_regression_calibrator.py:55-72): the pool
 * adjacent violators pass over the bins, in ascending id order, with a stack.
 * `Smooth` is the intended loop; `SmoothAsWritten` is the loop as the source
 * has it, where `top_bin` is never re-read after a pop.
 */
module Smoothing {
  import opened Wrappers
  import opened Samples
  import opened Lookup
  import opened ProbSort
  import opened Bins

  /** The calibrated scores of a sequence of non-empty bins, in order. */
  function Scores(bins: seq<Bin>): (r: seq<real>)
    requires AllNonEmpty(bins)
    ensures |r| == |bins| && forall i :: 0 <= i < |bins| ==> r[i] == CalibratedScore(bins[i])
  {
    seq(|bins|, i requires 0 <= i < |bins| => CalibratedScore(bins[i]))
  }

  /** The lowest probabilities of a sequence of non-empty bins, in order. */
  function LowProbs(bins: seq<Bin>): (r: seq<real>)
    requires AllNonEmpty(bins)
    ensures |r| == |bins| && forall i :: 0 <= i < |bins| ==> r[i] == LowProb(bins[i])
  {
    seq(|bins|, i requires 0 <= i < |bins| => LowProb(bins[i]))
  }

  // ---------------------------------------------------------------------------
  // The intended loop

  /**
   * One outer iteration: while the bin on top of the stack scores higher than the
   * current bin, pop it and merge it into the current bin; then push the current bin.
   */
  function PushMerge(stack: seq<Bin>, current: Bin): (r: seq<Bin>)
    requires AllNonEmpty(stack) && |current.samples| > 0
    ensures AllNonEmpty(r) && 1 <= |r| <= |stack| + 1
    decreases |stack|
  {
    if stack == [] then [current]
    else
      var top := stack[|stack| - 1];
      if CalibratedScore(top) > CalibratedScore(current) then PushMerge(stack[..|stack| - 1], Merge(current, top))
      else stack + [current]
  }

  /** The stack after visiting `bins` in order, starting from an empty stack. */
  function Smooth(bins: seq<Bin>): (r: seq<Bin>)
    requires AllNonEmpty(bins)
    ensures AllNonEmpty(r) && |r| <= |bins|
    ensures |bins| > 0 ==> |r| > 0
  {
    if bins == [] then []
    else PushMerge(Smooth(bins[..|bins| - 1]), bins[|bins| - 1])
  }

  /** Smoothing one more bin is one more push. */
  lemma SmoothPrefixStep(bins: seq<Bin>, i: int)
    requires AllNonEmpty(bins) && 0 <= i < |bins|
    ensures Smooth(bins[..i + 1]) == PushMerge(Smooth(bins[..i]), bins[i])
  {
    assert bins[..i + 1][..i] == bins[..i];
  }

  /** Pushing onto a stack of ascending scores keeps its scores ascending. */
  lemma {:induction false} PushMergeKeepsOrder(stack: seq<Bin>, current: Bin)
    requires AllNonEmpty(stack) && |current.samples| > 0
    requires Ascending(Scores(stack))
    ensures Ascending(Scores(PushMerge(stack, current)))
    decreases |stack|
  {
    if stack != [] {
      var n := |stack| - 1;
      var top := stack[n];
      if CalibratedScore(top) > CalibratedScore(current) {
        assert Scores(stack[..n]) == Scores(stack)[..n];
        PushMergeKeepsOrder(stack[..n], Merge(current, top));
      } else {
        var r := stack + [current];
        assert forall i :: 0 <= i < n + 1 ==> Scores(r)[i] == Scores(stack)[i];
      }
    }
  }

  /** Flattening, one bin more at the end. */
  lemma FlattenSnoc(bins: seq<Bin>, b: Bin)
    ensures Flatten(bins + [b]) == Flatten(bins) + b.samples
  {
    assert (bins + [b])[..|bins|] == bins;
  }

  /** Pushing neither loses nor duplicates samples, and keeps them in order. */
  lemma {:induction false} PushMergeKeepsSamples(stack: seq<Bin>, current: Bin)
    requires AllNonEmpty(stack) && |current.samples| > 0
    ensures Flatten(PushMerge(stack, current)) == Flatten(stack) + current.samples
    decreases |stack|
  {
    if stack == [] {
      FlattenSnoc([], current);
    } else {
      var n := |stack| - 1;
      var top := stack[n];
      assert stack[..n] + [top] == stack;
      FlattenSnoc(stack[..n], top);
      if CalibratedScore(top) > CalibratedScore(current) {
        var merged := Merge(current, top);
        assert PushMerge(stack, current) == PushMerge(stack[..n], merged);
        PushMergeKeepsSamples(stack[..n], merged);
        assert merged.samples == top.samples + current.samples;
        assert Flatten(stack[..n]) + merged.samples == (Flatten(stack[..n]) + top.samples) + current.samples;
      } else {
        assert PushMerge(stack, current) == stack + [current];
        FlattenSnoc(stack, current);
      }
    }
  }

  /**
   * After smoothing, the calibrated scores read bottom to top never decrease, and
   * the stack holds exactly the input samples, in the same order.
   */
  lemma {:induction false} SmoothIsMonotone(bins: seq<Bin>)
    requires AllNonEmpty(bins)
    ensures Ascending(Scores(Smooth(bins)))
    ensures Flatten(Smooth(bins)) == Flatten(bins)
  {
    if bins != [] {
      var n := |bins| - 1;
      SmoothIsMonotone(bins[..n]);
      PushMergeKeepsOrder(Smooth(bins[..n]), bins[n]);
      PushMergeKeepsSamples(Smooth(bins[..n]), bins[n]);
    }
  }

  /** Smoothing bins whose scores already ascend changes nothing. */
  lemma {:induction false} SmoothOfMonotoneIsIdentity(bins: seq<Bin>)
    requires AllNonEmpty(bins)
    requires Ascending(Scores(bins))
    ensures Smooth(bins) == bins
  {
    if bins != [] {
      var n := |bins| - 1;
      assert Scores(bins[..n]) == Scores(bins)[..n];
      SmoothOfMonotoneIsIdentity(bins[..n]);
      assert bins[..n] + [bins[n]] == bins;
    }
  }

  /** Smoothing twice is smoothing once. */
  lemma SmoothIsIdempotent(bins: seq<Bin>)
    requires AllNonEmpty(bins)
    ensures Smooth(Smooth(bins)) == Smooth(bins)
  {
    SmoothIsMonotone(bins);
    SmoothOfMonotoneIsIdentity(Smooth(bins));
  }

  /** A sequence ascends after one more element exactly when it ascended and its last element is not above the new one. */
  lemma AscendingSnoc(a: seq<real>, x: real)
    ensures Ascending(a + [x]) <==> Ascending(a) && (a != [] ==> a[|a| - 1] <= x)
  {
    var b := a + [x];
    if Ascending(b) {
      assert forall i :: 0 <= i < |a| ==> a[i] == b[i];
      if a != [] {
        assert b[|a| - 1] <= b[|a|];
      }
    }
    if Ascending(a) && (a != [] ==> a[|a| - 1] <= x) {
      forall i, j | 0 <= i < j < |b| ensures b[i] <= b[j] {
        if j < |a| {
          assert b[i] == a[i] && b[j] == a[j];
        } else if i < |a| - 1 {
          assert a[i] <= a[|a| - 1];
        }
      }
    }
  }

  /** The lowest probability of the last bin of `front` is not above that of `b`, when the samples ascend. */
  lemma {:induction false} LastLowProbBelow(front: seq<Bin>, b: Bin)
    requires AllNonEmpty(front) && front != [] && |b.samples| > 0
    requires SortedByProb(Flatten(front) + b.samples, false)
    ensures LowProb(front[|front| - 1]) <= LowProb(b)
  {
    var n := |front|;
    var last := front[n - 1];
    var all := Flatten(front) + b.samples;
    assert front[..n - 1] + [last] == front;
    FlattenSnoc(front[..n - 1], last);
    var f := Flatten(front);
    var p := |f| - |last.samples|;
    assert all[p] == last.samples[0];
    var q :| 0 <= q < |b.samples| && b.samples[q].prob == LowProb(b);
    assert all[|f| + q] == b.samples[q];
    assert Key(all[p], false) <= Key(all[|f| + q], false);
  }

  /**
   * Lowest probabilities follow the sample order: when the samples of consecutive
   * bins, read bin after bin, ascend in probability, the bins' `low_prob`s ascend.
   */
  lemma {:induction false} LowProbsAscending(bins: seq<Bin>)
    requires AllNonEmpty(bins)
    requires SortedByProb(Flatten(bins), false)
    ensures Ascending(LowProbs(bins))
  {
    if bins != [] {
      var n := |bins| - 1;
      var front, b := bins[..n], bins[n];
      var f := Flatten(front);
      assert Flatten(bins) == f + b.samples;
      assert SortedByProb(f, false) by {
        assert forall i :: 0 <= i < |f| ==> Flatten(bins)[i] == f[i];
      }
      LowProbsAscending(front);
      assert LowProbs(bins) == LowProbs(front) + [LowProb(b)];
      if n > 0 {
        LastLowProbBelow(front, b);
      }
      AscendingSnoc(LowProbs(front), LowProb(b));
    }
  }

  // ---------------------------------------------------------------------------
  // The loop as written

  /**
   * The inner `while` as written: `top_bin` is read once before the loop, so after
   * a merge and a pop the test still compares the current bin against the bin
   * that was just popped, and `stack.pop()` eventually meets an empty list.
   */
  function DrainAsWritten(top: Bin, current: Bin, stack: seq<Bin>): (r: Result<seq<Bin>, CalibError>)
    requires |top.samples| > 0 && |current.samples| > 0 && AllNonEmpty(stack)
    ensures r.Success? ==> AllNonEmpty(r.value)
    decreases |stack|
  {
    if CalibratedScore(top) > CalibratedScore(current) then
      if stack == [] then Failure(IndexOutOfRange)
      else DrainAsWritten(top, Merge(current, top), stack[..|stack| - 1])
    else Success(stack + [current])
  }

  /** `monotonic_smoothing` as written, over the bins in order. */
  function SmoothAsWritten(bins: seq<Bin>): (r: Result<seq<Bin>, CalibError>)
    requires AllNonEmpty(bins)
    ensures r.Success? ==> AllNonEmpty(r.value)
  {
    if bins == [] then Success([])
    else
      var n := |bins| - 1;
      match SmoothAsWritten(bins[..n])
      case Failure(e) => Failure(e)
      case Success(stack) =>
        if stack == [] then Success([bins[n]])
        else DrainAsWritten(stack[|stack| - 1], bins[n], stack)
  }

  /** Once the stale top scores above the current bin, the loop as written always fails. */
  lemma {:induction false} DrainAsWrittenFails(top: Bin, current: Bin, stack: seq<Bin>)
    requires |top.samples| > 0 && |current.samples| > 0 && AllNonEmpty(stack)
    requires CalibratedScore(top) > CalibratedScore(current)
    ensures DrainAsWritten(top, current, stack) == Failure(IndexOutOfRange)
    decreases |stack|
  {
    if stack != [] {
      MergedScoreBetween(current, top);
      DrainAsWrittenFails(top, Merge(current, top), stack[..|stack| - 1]);
    }
  }

  /**
   * The loop as written returns the bins unchanged when their scores already
   * ascend, and raises IndexError on any other input: it never merges anything.
   */
  lemma {:induction false} SmoothAsWrittenOnlyAcceptsMonotone(bins: seq<Bin>)
    requires AllNonEmpty(bins)
    ensures SmoothAsWritten(bins) == if Ascending(Scores(bins)) then Success(bins) else Failure(IndexOutOfRange)
  {
    if bins != [] {
      var n := |bins| - 1;
      var front, current := bins[..n], bins[n];
      assert front + [current] == bins;
      assert Scores(bins) == Scores(front) + [CalibratedScore(current)];
      SmoothAsWrittenOnlyAcceptsMonotone(front);
      AscendingSnoc(Scores(front), CalibratedScore(current));
      if !Ascending(Scores(front)) {
        assert SmoothAsWritten(front).Failure?;
      } else if front == [] {
        assert SmoothAsWritten(bins) == Success([current]);
      } else {
        var top := front[n - 1];
        assert SmoothAsWritten(bins) == DrainAsWritten(top, current, front);
        if CalibratedScore(top) > CalibratedScore(current) {
          DrainAsWrittenFails(top, current, front);
        } else {
          assert DrainAsWritten(top, current, front) == Success(bins);
        }
      }
    }
  }

  /**
   * Two bins scoring 1 and 0: as written, smoothing raises IndexError; the
   * intended loop pools them into one bin scoring 1/2.
   */
  lemma SmoothingCounterexample()
    ensures var bins := [Bin(0, [Sample(0.1, 1)]), Bin(1, [Sample(0.2, 0)])];
      && SmoothAsWritten(bins) == Failure(IndexOutOfRange)
      && Smooth(bins) == [Bin(1, [Sample(0.1, 1), Sample(0.2, 0)])]
      && Scores(Smooth(bins)) == [0.5]
  {
    var b0, b1 := Bin(0, [Sample(0.1, 1)]), Bin(1, [Sample(0.2, 0)]);
    var bins := [b0, b1];
    assert SumLabels(b0.samples) == 1;
    assert SumLabels(b1.samples) == 0;
    assert Scores(bins)[0] > Scores(bins)[1];
    SmoothAsWrittenOnlyAcceptsMonotone(bins);
    assert bins[..1] == [b0];
    assert [b0][..0] == [];
    assert Smooth([b0]) == [b0];
    var merged := Merge(b1, b0);
    assert merged == Bin(1, [Sample(0.1, 1), Sample(0.2, 0)]);
    assert PushMerge([], merged) == [merged];
    assert Smooth(bins) == [merged];
    assert SumLabels(merged.samples) == 1 by {
      assert merged.samples[..1] == b0.samples;
    }
  }
}
