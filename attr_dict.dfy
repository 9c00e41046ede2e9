/**
 * The Python `dict` of attribute names to values used by
 * content/homeprice/remove_inline_styles.py, as an insertion-ordered list of
 * pairs: iteration order is insertion order, assigning to an existing key keeps
 * its position, and a new key goes at the end.
 */
module AttrDict {

  type Dict = seq<(string, string)>

  /** `k in d` */
  predicate HasKey(d: Dict, k: string)
  {
    d != [] && (d[0].0 == k || HasKey(d[1..], k))
  }

  /** Every key occurs at most once. */
  predicate DistinctKeys(d: Dict)
  {
    d == [] || (!HasKey(d[1..], d[0].0) && DistinctKeys(d[1..]))
  }

  /** A key is present after appending an entry when it was present before or is the new one. */
  lemma {:induction false} HasKeyAppend(d: Dict, e: (string, string), x: string)
    ensures HasKey(d + [e], x) <==> HasKey(d, x) || x == e.0
  {
    if d != [] {
      assert (d + [e])[1..] == d[1..] + [e];
      HasKeyAppend(d[1..], e, x);
    }
  }

  /** Appending an entry keeps the keys distinct exactly when its key is new. */
  lemma {:induction false} DistinctKeysAppend(d: Dict, e: (string, string))
    ensures DistinctKeys(d + [e]) <==> DistinctKeys(d) && !HasKey(d, e.0)
  {
    if d != [] {
      assert (d + [e])[1..] == d[1..] + [e];
      HasKeyAppend(d[1..], e, d[0].0);
      DistinctKeysAppend(d[1..], e);
    }
  }

  /** `d.get(k, default)`; also `d[k]` when k is present. */
  function Get(d: Dict, k: string, default: string): (v: string)
    ensures !HasKey(d, k) ==> v == default
    ensures HasKey(d, k) ==> (k, v) in d
  {
    if d == [] then default
    else if d[0].0 == k then d[0].1
    else Get(d[1..], k, default)
  }

  /** `d[k] = v` */
  function Set(d: Dict, k: string, v: string): (r: Dict)
    ensures HasKey(r, k)
    ensures forall x :: HasKey(r, x) <==> x == k || HasKey(d, x)
    ensures DistinctKeys(d) ==> DistinctKeys(r)
    ensures HasKey(d, k) ==> |r| == |d|
    ensures !HasKey(d, k) ==> r == d + [(k, v)]
  {
    if d == [] then [(k, v)]
    else if d[0].0 == k then [(k, v)] + d[1..]
    else [d[0]] + Set(d[1..], k, v)
  }

  /** The key of every entry is present. */
  lemma {:induction false} HasKeyAt(d: Dict, i: nat)
    requires i < |d|
    ensures HasKey(d, d[i].0)
  {
    if i > 0 {
      HasKeyAt(d[1..], i - 1);
    }
  }

  /** A present key is the key of some entry. */
  lemma {:induction false} HasKeyIndex(d: Dict, k: string)
    requires HasKey(d, k)
    ensures exists i :: 0 <= i < |d| && d[i].0 == k
  {
    if d[0].0 != k {
      HasKeyIndex(d[1..], k);
      var i :| 0 <= i < |d[1..]| && d[1..][i].0 == k;
      assert d[i + 1].0 == k;
    }
  }

  /** Assigning to a key that is present replaces its entry where it stands; every other entry stays. */
  lemma {:induction false} SetInPlace(d: Dict, k: string, v: string)
    requires DistinctKeys(d) && HasKey(d, k)
    ensures var r := Set(d, k, v);
      |r| == |d| && forall i :: 0 <= i < |d| ==> r[i] == (if d[i].0 == k then (k, v) else d[i])
  {
    if d[0].0 == k {
      forall i | 1 <= i < |d|
        ensures d[i].0 != k
      {
        HasKeyAt(d[1..], i - 1);
      }
    } else {
      SetInPlace(d[1..], k, v);
    }
  }

  /** After `d[k] = v`, k maps to v and every other key to what it mapped to before. */
  lemma {:induction false} GetAfterSet(d: Dict, k: string, v: string, x: string, default: string)
    requires DistinctKeys(d)
    ensures Get(Set(d, k, v), x, default) == if x == k then v else Get(d, x, default)
  {
    if d != [] && d[0].0 != k {
      GetAfterSet(d[1..], k, v, x, default);
    }
  }

  /** `del d[k]` (the caller has checked that k is present). */
  function Remove(d: Dict, k: string): (r: Dict)
    ensures !HasKey(r, k)
    ensures forall x :: x != k ==> (HasKey(r, x) <==> HasKey(d, x))
    ensures DistinctKeys(d) ==> DistinctKeys(r)
  {
    if d == [] then []
    else if d[0].0 == k then Remove(d[1..], k)
    else [d[0]] + Remove(d[1..], k)
  }

  /** After `del d[k]`, every other key maps to what it mapped to before. */
  lemma {:induction false} GetAfterRemove(d: Dict, k: string, x: string, default: string)
    requires DistinctKeys(d) && x != k
    ensures Get(Remove(d, k), x, default) == Get(d, x, default)
  {
    if d != [] {
      GetAfterRemove(d[1..], k, x, default);
    }
  }

  /** `dict(pairs)`: the pairs inserted one after another, so a repeated key keeps its first position and its last value. */
  function FromPairs(pairs: seq<(string, string)>): (d: Dict)
    ensures DistinctKeys(d)
    ensures forall x :: HasKey(d, x) <==> HasKey(pairs, x)
    ensures |d| <= |pairs|
    ensures |d| == 0 <==> |pairs| == 0
  {
    if pairs == [] then []
    else
      var last := pairs[|pairs| - 1];
      var init := pairs[..|pairs| - 1];
      assert init + [last] == pairs;
      assert forall x :: HasKey(pairs, x) <==> HasKey(init, x) || x == last.0 by {
        forall x { HasKeyAppend(init, last, x); }
      }
      Set(FromPairs(init), last.0, last.1)
  }

  /** The value of the last pair named x, scanning from the end; `dflt` when there is none. */
  function LastValue(pairs: seq<(string, string)>, x: string, dflt: string): string
  {
    if pairs == [] then dflt
    else if pairs[|pairs| - 1].0 == x then pairs[|pairs| - 1].1
    else LastValue(pairs[..|pairs| - 1], x, dflt)
  }

  /**
   * A name given several times maps to the value of its last occurrence, and a
   * name never given to the default.
   */
  lemma {:induction false} FromPairsLastValue(pairs: seq<(string, string)>, x: string, dflt: string)
    ensures Get(FromPairs(pairs), x, dflt) == LastValue(pairs, x, dflt)
  {
    if pairs != [] {
      var init := pairs[..|pairs| - 1];
      var last := pairs[|pairs| - 1];
      FromPairsLastValue(init, x, dflt);
      GetAfterSet(FromPairs(init), last.0, last.1, x, dflt);
    }
  }

  /** A list of pairs without repeated names is already its own dict. */
  lemma {:induction false} FromDistinctPairs(pairs: seq<(string, string)>)
    requires DistinctKeys(pairs)
    ensures FromPairs(pairs) == pairs
  {
    if pairs != [] {
      var init := pairs[..|pairs| - 1];
      var last := pairs[|pairs| - 1];
      assert init + [last] == pairs;
      DistinctKeysAppend(init, last);
      FromDistinctPairs(init);
    }
  }

  /** The entries whose key is neither `a` nor `b`, in order. */
  function Others(d: Dict, a: string, b: string): (r: Dict)
    ensures forall i :: 0 <= i < |r| ==> r[i].0 != a && r[i].0 != b
  {
    if d == [] then []
    else if d[0].0 == a || d[0].0 == b then Others(d[1..], a, b)
    else [d[0]] + Others(d[1..], a, b)
  }

  /** Setting key `a` leaves the other entries and their order as they were. */
  lemma {:induction false} OthersAfterSet(d: Dict, a: string, b: string, v: string)
    ensures Others(Set(d, a, v), a, b) == Others(d, a, b)
  {
    if d != [] && d[0].0 != a {
      OthersAfterSet(d[1..], a, b, v);
    } else if d == [] {
      assert Others([(a, v)], a, b) == Others([], a, b);
    }
  }

  /** Removing key `b` leaves the other entries and their order as they were. */
  lemma {:induction false} OthersAfterRemove(d: Dict, a: string, b: string)
    ensures Others(Remove(d, b), a, b) == Others(d, a, b)
  {
    if d != [] {
      OthersAfterRemove(d[1..], a, b);
    }
  }
}
