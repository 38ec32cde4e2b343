/** The predecessor binary search of model/utils.py, used at prediction time. */
module Lookup {

  /** `a` is sorted ascending (non-decreasing). */
  predicate Ascending(a: seq<real>)
  {
    forall i, j :: 0 <= i < j < |a| ==> a[i] <= a[j]
  }

  /**
   * The reference definition of the query: the rightmost index whose element is
   * strictly below `x`, or -1 when there is none. Defined by a scan from the right,
   * so it makes sense for any sequence, sorted or not.
   */
  function Predecessor(x: real, a: seq<real>): (r: int)
    ensures -1 <= r < |a|
    ensures r >= 0 ==> a[r] < x
    ensures forall i :: r < i < |a| ==> a[i] >= x
  {
    if a == [] then -1
    else if a[|a| - 1] < x then |a| - 1
    else Predecessor(x, a[..|a| - 1])
  }

  /** A larger query never has a smaller predecessor (for any sequence). */
  lemma {:induction false} PredecessorMonotone(x1: real, x2: real, a: seq<real>)
    requires x1 <= x2
    ensures Predecessor(x1, a) <= Predecessor(x2, a)
  {
    if a != [] && a[|a| - 1] >= x2 {
      PredecessorMonotone(x1, x2, a[..|a| - 1]);
    }
  }

  /**
   * `strict_lower_bound(x, arr)`: binary search over `arr`, which it only reads.
   * For any `arr` the result is a boundary: the element at the result is below `x`
   * and the one after it is not. When `arr` is ascending the result is exactly
   * the predecessor of `x`.
   */
  method StrictLowerBound(x: real, arr: seq<real>) returns (r: int)
    ensures -1 <= r < |arr|
    ensures r >= 0 ==> arr[r] < x
    ensures r + 1 < |arr| ==> arr[r + 1] >= x
    ensures Ascending(arr) ==> forall i :: 0 <= i <= r ==> arr[i] < x
    ensures Ascending(arr) ==> forall i :: r < i < |arr| ==> arr[i] >= x
    ensures Ascending(arr) ==> r == Predecessor(x, arr)
  {
    var start, end := 0, |arr| - 1;
    while start <= end
      invariant 0 <= start <= end + 1 <= |arr|
      invariant start > 0 ==> arr[start - 1] < x
      invariant end + 1 < |arr| ==> arr[end + 1] >= x
      invariant Ascending(arr) ==> forall i :: 0 <= i < start ==> arr[i] < x
      invariant Ascending(arr) ==> forall i :: end < i < |arr| ==> arr[i] >= x
      decreases end - start
    {
      var mid := (start + end) / 2;
      if arr[mid] < x {
        start := mid + 1;
      } else {
        end := mid - 1;
      }
    }
    r := end;
  }
}
