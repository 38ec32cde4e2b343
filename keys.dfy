/** Visiting a dictionary's integer keys in ascending order. */
module Keys {

  /** `m` is the largest element of `keys`. */
  predicate IsMax(keys: set<int>, m: int)
  {
    m in keys && forall k :: k in keys ==> k <= m
  }

  /** A non-empty set has a member (stated so that `:|` can pick one). */
  lemma SomeMember(keys: set<int>)
    requires keys != {}
    ensures exists x :: x in keys
  {
    if forall x :: x !in keys {
      assert false;
    }
  }

  lemma MaxWithOneMore(keys: set<int>, x: int, m: int)
    requires x in keys
    requires forall k :: k in keys - {x} ==> k <= m
    ensures forall k :: k in keys ==> k <= (if m < x then x else m)
  {
    forall k | k in keys ensures k <= (if m < x then x else m) {
      if k != x {
        assert k in keys - {x};
      }
    }
  }

  /** Every non-empty finite set of integers has a largest element. */
  lemma {:induction false} MaxExists(keys: set<int>)
    requires keys != {}
    ensures exists m :: IsMax(keys, m)
    decreases |keys|
  {
    SomeMember(keys);
    var x :| x in keys;
    var rest := keys - {x};
    if rest == {} {
      MaxWithOneMore(keys, x, x);
      assert IsMax(keys, x);
    } else {
      MaxExists(rest);
      var m :| IsMax(rest, m);
      MaxWithOneMore(keys, x, m);
      assert IsMax(keys, if m < x then x else m);
    }
  }

  /** The keys of a set in ascending order, as a specification. */
  ghost function AscendingKeys(keys: set<int>): (r: seq<int>)
    ensures |r| == |keys|
    ensures forall i, j :: 0 <= i < j < |r| ==> r[i] < r[j]
    ensures forall k {:trigger k in r} :: k in r <==> k in keys
    decreases |keys|
  {
    if keys == {} then []
    else
      MaxExists(keys);
      var m :| IsMax(keys, m);
      var below := AscendingKeys(keys - {m});
      assert forall i :: 0 <= i < |below| ==> below[i] in below;
      below + [m]
  }

  /** Listing the keys from the largest down, one maximum at a time. */
  method SortedKeys(keys: set<int>) returns (r: seq<int>)
    ensures r == AscendingKeys(keys)
  {
    var rest := keys;
    r := [];
    while rest != {}
      invariant rest <= keys
      invariant AscendingKeys(keys) == AscendingKeys(rest) + r
      decreases |rest|
    {
      MaxExists(rest);
      var m :| IsMax(rest, m);
      assert AscendingKeys(rest) == AscendingKeys(rest - {m}) + [m];
      r := [m] + r;
      rest := rest - {m};
    }
  }
}
