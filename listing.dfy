/** Sorted reads of a collection: `find(filter).sort({ field: 1 })` returns the
    matching documents ordered by an integer key, ties in no particular order. */
module Listing {

  /** `s` is ordered by `key`, smallest first. */
  ghost predicate Ascending<T>(s: seq<T>, key: T -> int)
  {
    forall i, j :: 0 <= i < j < |s| ==> key(s[i]) <= key(s[j])
  }

  /** `x` placed into the sorted `s` before the first element with a larger or equal key. */
  function Insert<T>(x: T, s: seq<T>, key: T -> int): (r: seq<T>)
    requires Ascending(s, key)
    ensures Ascending(r, key)
    ensures |r| == |s| + 1
    ensures multiset(r) == multiset(s) + multiset{x}
  {
    if s == [] || key(x) <= key(s[0]) then
      FrontKept(x, s, key);
      [x] + s
    else
      var rest := Insert(x, s[1..], key);
      assert s == [s[0]] + s[1..];
      LowerBoundKept(s[0], x, s[1..], rest, key);
      [s[0]] + rest
  }

  /** A key no larger than the first key of a sorted sequence may go in front of it. */
  lemma FrontKept<T>(x: T, s: seq<T>, key: T -> int)
    requires Ascending(s, key) && (s == [] || key(x) <= key(s[0]))
    ensures Ascending([x] + s, key)
  {
    var r := [x] + s;
    forall i, j | 0 <= i < j < |r| ensures key(r[i]) <= key(r[j]) {
      assert r[j] == s[j - 1];
      if i > 0 { assert r[i] == s[i - 1]; } else { assert key(s[0]) <= key(s[j - 1]); }
    }
  }

  /** A key no larger than every key of `s` and than `x`'s is no larger than
      any key of a sequence holding the elements of `s` and `x`. */
  lemma LowerBoundKept<T>(y: T, x: T, s: seq<T>, rest: seq<T>, key: T -> int)
    requires Ascending([y] + s, key) && key(y) <= key(x)
    requires Ascending(rest, key) && multiset(rest) == multiset(s) + multiset{x}
    ensures Ascending([y] + rest, key)
  {
    forall j | 0 <= j < |rest| ensures key(y) <= key(rest[j]) {
      assert rest[j] in multiset(rest);
      if rest[j] != x {
        assert rest[j] in multiset(s);
        var i :| 0 <= i < |s| && s[i] == rest[j];
        assert ([y] + s)[0] == y && ([y] + s)[i + 1] == s[i];
      }
    }
    var r := [y] + rest;
    forall i, j | 0 <= i < j < |r| ensures key(r[i]) <= key(r[j]) {
      if i > 0 { assert r[i] == rest[i - 1] && r[j] == rest[j - 1]; }
      else { assert r[j] == rest[j - 1]; }
    }
  }

  /** No two keys of `m` map to the same value. */
  ghost predicate Injective<K, V>(m: map<K, V>)
  {
    forall a, b :: a in m && b in m && a != b ==> m[a] != m[b]
  }

  /** Every value of `m` exactly as often as a key maps to it, in ascending `key` order. */
  ghost function SortedValues<K, V(!new)>(m: map<K, V>, key: V -> int): (r: seq<V>)
    ensures Ascending(r, key)
    ensures |r| == |m|
    ensures forall v :: v in r <==> v in m.Values
    ensures Injective(m) ==> forall v :: multiset(r)[v] == if v in m.Values then 1 else 0
    decreases |m|
  {
    if m == map[] then []
    else
      var k :| k in m;
      var rest := SortedValues(m - {k}, key);
      var r := Insert(m[k], rest, key);
      assert (m - {k}).Keys == m.Keys - {k};
      assert forall v :: v in r <==> v == m[k] || v in rest by {
        forall v ensures v in r <==> v == m[k] || v in rest {
          assert v in r <==> v in multiset(r);
          assert v in rest <==> v in multiset(rest);
        }
      }
      assert forall v :: v in m.Values <==> v == m[k] || v in (m - {k}).Values by {
        forall v ensures v in m.Values <==> v == m[k] || v in (m - {k}).Values {
          if v in m.Values && v != m[k] {
            var j :| j in m && m[j] == v;
            assert j in m - {k};
          }
        }
      }
      assert Injective(m) ==> m[k] !in (m - {k}).Values;
      r
  }
}
