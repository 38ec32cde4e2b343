/**
 * Python's stable `list.sort(key=lambda x: x[0], reverse=decreasing)` and
 * `sorted(...)`, as a specification function: an insertion sort by probability
 * that keeps samples of equal probability in their input order (Python keeps
 * sort stability under `reverse=True` as well).
 */
module ProbSort {
  import opened Samples

  /** The sort key: the probability, negated for a decreasing sort. */
  function Key(x: Sample, decreasing: bool): real
  {
    if decreasing then -x.prob else x.prob
  }

  /** Keys never decrease along `s`. */
  predicate SortedByProb(s: seq<Sample>, decreasing: bool)
  {
    forall i, j :: 0 <= i < j < |s| ==> Key(s[i], decreasing) <= Key(s[j], decreasing)
  }

  /** Inserts `x` in front of the first element whose key is not below `x`'s. */
  function Insert(x: Sample, t: seq<Sample>, decreasing: bool): (r: seq<Sample>)
    ensures |r| == |t| + 1
  {
    if t == [] then [x]
    else if Key(t[0], decreasing) < Key(x, decreasing) then [t[0]] + Insert(x, t[1..], decreasing)
    else [x] + t
  }

  /** The stable sort of `s` by probability (ascending, or descending when `decreasing`). */
  function SortByProb(s: seq<Sample>, decreasing: bool): (r: seq<Sample>)
    ensures |r| == |s|
  {
    if s == [] then [] else Insert(s[0], SortByProb(s[1..], decreasing), decreasing)
  }

  /** The samples of `s` whose probability is `p`, in their order in `s`. */
  function WithProb(s: seq<Sample>, p: real): seq<Sample>
  {
    if s == [] then [] else (if s[0].prob == p then [s[0]] else []) + WithProb(s[1..], p)
  }

  lemma {:induction false} InsertPermutes(x: Sample, t: seq<Sample>, decreasing: bool)
    ensures multiset(Insert(x, t, decreasing)) == multiset(t) + multiset{x}
  {
    if t != [] && Key(t[0], decreasing) < Key(x, decreasing) {
      InsertPermutes(x, t[1..], decreasing);
      assert t == [t[0]] + t[1..];
    }
  }

  /** The sort is a permutation of its input. */
  lemma {:induction false} SortPermutes(s: seq<Sample>, decreasing: bool)
    ensures multiset(SortByProb(s, decreasing)) == multiset(s)
  {
    if s != [] {
      SortPermutes(s[1..], decreasing);
      InsertPermutes(s[0], SortByProb(s[1..], decreasing), decreasing);
      assert s == [s[0]] + s[1..];
    }
  }

  lemma {:induction false} InsertSorted(x: Sample, t: seq<Sample>, decreasing: bool)
    requires SortedByProb(t, decreasing)
    ensures SortedByProb(Insert(x, t, decreasing), decreasing)
  {
    if t != [] && Key(t[0], decreasing) < Key(x, decreasing) {
      InsertSorted(x, t[1..], decreasing);
      InsertPermutes(x, t[1..], decreasing);
      var r := Insert(x, t[1..], decreasing);
      forall j | 0 <= j < |r|
        ensures Key(t[0], decreasing) <= Key(r[j], decreasing)
      {
        assert r[j] in multiset(r);
      }
    }
  }

  /** The result of the sort is in order. */
  lemma {:induction false} SortIsSorted(s: seq<Sample>, decreasing: bool)
    ensures SortedByProb(SortByProb(s, decreasing), decreasing)
  {
    if s != [] {
      SortIsSorted(s[1..], decreasing);
      InsertSorted(s[0], SortByProb(s[1..], decreasing), decreasing);
    }
  }

  lemma WithProbCons(a: Sample, t: seq<Sample>, p: real)
    ensures WithProb([a] + t, p) == (if a.prob == p then [a] else []) + WithProb(t, p)
  {
    assert ([a] + t)[0] == a && ([a] + t)[1..] == t;
  }

  lemma {:induction false} InsertKeepsTies(x: Sample, t: seq<Sample>, decreasing: bool, p: real)
    ensures WithProb(Insert(x, t, decreasing), p)
         == (if x.prob == p then [x] else []) + WithProb(t, p)
  {
    if t == [] {
      WithProbCons(x, [], p);
    } else if Key(t[0], decreasing) < Key(x, decreasing) {
      var rest := Insert(x, t[1..], decreasing);
      var xs := if x.prob == p then [x] else [];
      var ts := if t[0].prob == p then [t[0]] else [];
      assert Insert(x, t, decreasing) == [t[0]] + rest;
      calc {
        WithProb([t[0]] + rest, p);
        { WithProbCons(t[0], rest, p); }
        ts + WithProb(rest, p);
        { InsertKeepsTies(x, t[1..], decreasing, p); }
        ts + (xs + WithProb(t[1..], p));
        { assert t[0].prob != x.prob; assert ts == [] || xs == []; }
        xs + (ts + WithProb(t[1..], p));
        { WithProbCons(t[0], t[1..], p); assert [t[0]] + t[1..] == t; }
        xs + WithProb(t, p);
      }
    } else {
      WithProbCons(x, t, p);
    }
  }

  /** Stability: samples of equal probability keep their relative order. */
  lemma {:induction false} SortIsStable(s: seq<Sample>, decreasing: bool, p: real)
    ensures WithProb(SortByProb(s, decreasing), p) == WithProb(s, p)
  {
    if s != [] {
      SortIsStable(s[1..], decreasing, p);
      InsertKeepsTies(s[0], SortByProb(s[1..], decreasing), decreasing, p);
    }
  }

  /** A list already in order is left as it is; hence sorting twice equals sorting once. */
  lemma {:induction false} SortOfSortedIsIdentity(s: seq<Sample>, decreasing: bool)
    requires SortedByProb(s, decreasing)
    ensures SortByProb(s, decreasing) == s
  {
    if s != [] {
      assert SortedByProb(s[1..], decreasing);
      SortOfSortedIsIdentity(s[1..], decreasing);
      assert [s[0]] + s[1..] == s;
    }
  }

  lemma SortIsIdempotent(s: seq<Sample>, decreasing: bool)
    ensures SortByProb(SortByProb(s, decreasing), decreasing) == SortByProb(s, decreasing)
  {
    SortIsSorted(s, decreasing);
    SortOfSortedIsIdentity(SortByProb(s, decreasing), decreasing);
  }
}
