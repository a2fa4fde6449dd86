/**
 * Sorting with a comparison, and why the result does not depend on the order of the input.
 */
module Sorting {
  /** A strict total order, as the comparison of two names or of two numbers is. */
  ghost predicate StrictTotal<T(!new)>(before: (T, T) -> bool) {
    && (forall x, y :: before(x, y) ==> !before(y, x))
    && (forall x, y :: x != y ==> before(x, y) || before(y, x))
    && (forall x, y, z :: before(x, y) && before(y, z) ==> before(x, z))
  }

  predicate Ascending<T>(s: seq<T>, before: (T, T) -> bool) {
    forall i, j :: 0 <= i < j < |s| ==> before(s[i], s[j])
  }

  function Insert<K, T>(x: T, s: seq<T>, key: T -> K, before: (K, K) -> bool): (r: seq<T>)
    ensures multiset(r) == multiset{x} + multiset(s)
  {
    if s == [] || !before(key(s[0]), key(x)) then [x] + s
    else
      assert s == [s[0]] + s[1..];
      [s[0]] + Insert(x, s[1..], key, before)
  }

  /** `Array.prototype.sort` by a key. */
  function Sort<K, T>(s: seq<T>, key: T -> K, before: (K, K) -> bool): (r: seq<T>)
    ensures multiset(r) == multiset(s)
  {
    if s == [] then []
    else
      assert s == [s[0]] + s[1..];
      Insert(s[0], Sort(s[1..], key, before), key, before)
  }

  function Keys<K, T>(s: seq<T>, key: T -> K): (r: seq<K>)
    ensures |r| == |s| && forall i :: 0 <= i < |s| ==> r[i] == key(s[i])
  {
    seq(|s|, i requires 0 <= i < |s| => key(s[i]))
  }

  lemma Members<T>(s: seq<T>, t: seq<T>)
    requires multiset(s) == multiset(t)
    ensures |s| == |t| && forall x :: x in s <==> x in t
  {
    assert |multiset(s)| == |s| && |multiset(t)| == |t|;
    forall x
      ensures x in s <==> x in t
    {
      assert x in s <==> x in multiset(s);
      assert x in t <==> x in multiset(t);
    }
  }

  lemma {:induction false} InsertAscends<K(!new), T>(x: T, s: seq<T>, key: T -> K, before: (K, K) -> bool)
    requires StrictTotal(before) && Ascending(Keys(s, key), before)
    requires forall y :: y in s ==> key(y) != key(x)
    ensures Ascending(Keys(Insert(x, s, key, before), key), before)
  {
    if s != [] && before(key(s[0]), key(x)) {
      assert Ascending(Keys(s[1..], key), before) by {
        assert forall i :: 0 <= i < |s| - 1 ==> Keys(s[1..], key)[i] == Keys(s, key)[i + 1];
      }
      InsertAscends(x, s[1..], key, before);
      var r := Insert(x, s[1..], key, before);
      forall i | 0 <= i < |r|
        ensures before(key(s[0]), key(r[i]))
      {
        assert r[i] in multiset(r);
        if r[i] != x {
          var j :| 0 <= j < |s| - 1 && s[1..][j] == r[i];
          assert before(Keys(s, key)[0], Keys(s, key)[j + 1]);
        }
      }
    } else if s != [] {
      assert before(key(x), key(s[0]));
      forall i | 0 <= i < |s|
        ensures before(key(x), key(s[i]))
      {
        assert i > 0 ==> before(Keys(s, key)[0], Keys(s, key)[i]);
      }
    }
  }

  /** Sorting by pairwise different keys leaves the keys strictly ascending. */
  lemma {:induction false} SortAscends<K(!new), T>(s: seq<T>, key: T -> K, before: (K, K) -> bool)
    requires StrictTotal(before)
    requires forall i, j :: 0 <= i < j < |s| ==> key(s[i]) != key(s[j])
    ensures Ascending(Keys(Sort(s, key, before), key), before)
  {
    if s != [] {
      var rest := s[1..];
      assert forall i :: 0 <= i < |rest| ==> rest[i] == s[i + 1];
      SortAscends(rest, key, before);
      var sorted := Sort(rest, key, before);
      forall y | y in sorted
        ensures key(y) != key(s[0])
      {
        assert y in multiset(sorted);
        assert y in multiset(rest);
        var i :| 0 <= i < |rest| && rest[i] == y;
        assert s[i + 1] == y;
      }
      InsertAscends(s[0], sorted, key, before);
    }
  }

  /** A strictly ascending sequence is determined by its elements. */
  lemma {:induction false} AscendingUnique<T(!new)>(u: seq<T>, v: seq<T>, before: (T, T) -> bool)
    requires StrictTotal(before) && Ascending(u, before) && Ascending(v, before)
    requires forall x :: x in u <==> x in v
    ensures u == v
  {
    if u != [] {
      assert u[0] in v;
    }
    if v != [] {
      assert v[0] in u;
    }
    if u != [] {
      assert u[0] == v[0];
      forall x
        ensures x in u[1..] <==> x in v[1..]
      {
        if x in u[1..] {
          var i :| 0 <= i < |u| - 1 && u[1..][i] == x;
          assert u[i + 1] == x && before(u[0], x) && x in v;
        }
        if x in v[1..] {
          var i :| 0 <= i < |v| - 1 && v[1..][i] == x;
          assert v[i + 1] == x && before(v[0], x) && x in u;
        }
      }
      AscendingUnique(u[1..], v[1..], before);
      assert u == [u[0]] + u[1..] && v == [v[0]] + v[1..];
    }
  }
}
