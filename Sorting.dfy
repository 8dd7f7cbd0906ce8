/**
 * Python's `sorted(xs, key=k)` for keys that are pairs compared
 * lexicographically, as an insertion sort on sequences that, like Python's
 * sort, keeps elements with equal keys in their original order.
 */
module Sorting {

  /** Tuple comparison `a <= b` for `(int, float)` keys. */
  predicate KeyLe(a: (int, real), b: (int, real)) {
    a.0 < b.0 || (a.0 == b.0 && a.1 <= b.1)
  }

  /** Tuple comparison `a < b`. */
  predicate KeyLt(a: (int, real), b: (int, real)) {
    a.0 < b.0 || (a.0 == b.0 && a.1 < b.1)
  }

  predicate SortedBy<T>(s: seq<T>, key: T -> (int, real)) {
    forall i, j :: 0 <= i < j < |s| ==> KeyLe(key(s[i]), key(s[j]))
  }

  /**
   * Inserts `x` before the first element whose key is not less than its
   * own, so that `x` precedes the elements with an equal key.
   */
  function Insert<T>(x: T, s: seq<T>, key: T -> (int, real)): (r: seq<T>)
    ensures multiset(r) == multiset(s) + multiset{x}
    ensures |r| == |s| + 1
  {
    if s == [] then [x]
    else if KeyLt(key(s[0]), key(x)) then
      assert s == [s[0]] + s[1..];
      [s[0]] + Insert(x, s[1..], key)
    else [x] + s
  }

  lemma {:induction false} InsertSorted<T>(x: T, s: seq<T>, key: T -> (int, real))
    requires SortedBy(s, key)
    ensures SortedBy(Insert(x, s, key), key)
  {
    if s == [] {
    } else if KeyLt(key(s[0]), key(x)) {
      var tail := s[1..];
      assert SortedBy(tail, key) by {
        forall i, j | 0 <= i < j < |tail| ensures KeyLe(key(tail[i]), key(tail[j])) {
          assert tail[i] == s[i + 1] && tail[j] == s[j + 1];
        }
      }
      InsertSorted(x, tail, key);
      var r := Insert(x, tail, key);
      forall i | 0 <= i < |r| ensures KeyLe(key(s[0]), key(r[i])) {
        assert r[i] in multiset(r);
        if r[i] != x {
          assert r[i] in multiset(tail);
          var j :| 0 <= j < |tail| && tail[j] == r[i];
          assert s[j + 1] == r[i];
        }
      }
      var full := [s[0]] + r;
      forall i, j | 0 <= i < j < |full| ensures KeyLe(key(full[i]), key(full[j])) {
        if i > 0 {
          assert full[i] == r[i - 1] && full[j] == r[j - 1];
        } else {
          assert full[j] == r[j - 1];
        }
      }
    } else {
      var full := [x] + s;
      forall i, j | 0 <= i < j < |full| ensures KeyLe(key(full[i]), key(full[j])) {
        if i > 0 {
          assert full[i] == s[i - 1] && full[j] == s[j - 1];
        } else {
          assert full[j] == s[j - 1];
          assert KeyLe(key(s[0]), key(s[j - 1])) || j - 1 == 0;
        }
      }
    }
  }

  /** `sorted(s, key=key)`. */
  function SortBy<T>(s: seq<T>, key: T -> (int, real)): (r: seq<T>)
    ensures multiset(r) == multiset(s)
    ensures |r| == |s|
  {
    if s == [] then []
    else
      assert s == [s[0]] + s[1..];
      Insert(s[0], SortBy(s[1..], key), key)
  }

  /** The result of `SortBy` is ordered by key and holds exactly the input's elements. */
  lemma {:induction false} SortBySorted<T>(s: seq<T>, key: T -> (int, real))
    ensures SortedBy(SortBy(s, key), key)
    ensures multiset(SortBy(s, key)) == multiset(s)
  {
    if s != [] {
      SortBySorted(s[1..], key);
      InsertSorted(s[0], SortBy(s[1..], key), key);
    }
  }

  /** Sorting a sequence that is already in key order leaves it as it is, ties included. */
  lemma {:induction false} SortBySortedIdentity<T>(s: seq<T>, key: T -> (int, real))
    requires SortedBy(s, key)
    ensures SortBy(s, key) == s
  {
    if s != [] {
      var tail := s[1..];
      assert SortedBy(tail, key) by {
        forall i, j | 0 <= i < j < |tail| ensures KeyLe(key(tail[i]), key(tail[j])) {
          assert tail[i] == s[i + 1] && tail[j] == s[j + 1];
        }
      }
      SortBySortedIdentity(tail, key);
      if tail != [] {
        assert KeyLe(key(s[0]), key(s[1]));
      }
      assert s == [s[0]] + tail;
    }
  }

  /** The elements of `s` whose key is `k`, in their order in `s`. */
  function WithKey<T>(s: seq<T>, key: T -> (int, real), k: (int, real)): seq<T> {
    if s == [] then [] else (if key(s[0]) == k then [s[0]] else []) + WithKey(s[1..], key, k)
  }

  lemma {:induction false} WithKeyCons<T>(y: T, t: seq<T>, key: T -> (int, real), k: (int, real))
    ensures WithKey([y] + t, key, k) == (if key(y) == k then [y] else []) + WithKey(t, key, k)
  {
    var full := [y] + t;
    assert full[0] == y && full[1..] == t;
  }

  /** Inserting `x` only steps over elements with a smaller key, so it lands first among those with its own key. */
  lemma {:induction false} InsertWithKey<T>(x: T, s: seq<T>, key: T -> (int, real), k: (int, real))
    ensures WithKey(Insert(x, s, key), key, k) == (if key(x) == k then [x] else []) + WithKey(s, key, k)
  {
    if s == [] {
      var single := [x];
      assert Insert(x, s, key) == single && single[1..] == s;
    } else if KeyLt(key(s[0]), key(x)) {
      var rest := Insert(x, s[1..], key);
      assert Insert(x, s, key) == [s[0]] + rest;
      InsertWithKey(x, s[1..], key, k);
      var later := WithKey(s[1..], key, k);
      assert WithKey(s, key, k) == (if key(s[0]) == k then [s[0]] else []) + later;
      WithKeyCons(s[0], rest, key, k);
      if key(s[0]) == k {
        assert key(x) != k;
        assert WithKey(rest, key, k) == later;
      } else {
        assert WithKey([s[0]] + rest, key, k) == [] + WithKey(rest, key, k);
        assert [] + WithKey(rest, key, k) == WithKey(rest, key, k);
        assert [] + later == later;
      }
    } else {
      assert Insert(x, s, key) == [x] + s;
      WithKeyCons(x, s, key, k);
    }
  }

  /** `sorted` is stable: the elements sharing a key keep their input order. */
  lemma {:induction false} SortByStable<T>(s: seq<T>, key: T -> (int, real), k: (int, real))
    ensures WithKey(SortBy(s, key), key, k) == WithKey(s, key, k)
  {
    if s != [] {
      SortByStable(s[1..], key, k);
      InsertWithKey(s[0], SortBy(s[1..], key), key, k);
    }
  }
}
