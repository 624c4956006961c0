/**
 * Sorting by insertion: the result is ordered by a total preorder `le` and is a permutation
 * of the input. Equal elements are not kept in input order, so Python's stable `sorted` and
 * `list.sort` are matched only under an order that breaks ties by position.
 */
module Sorting {

  ghost predicate TotalPreorder<T(!new)>(le: (T, T) -> bool) {
    && (forall x, y :: le(x, y) || le(y, x))
    && (forall x, y, z :: le(x, y) && le(y, z) ==> le(x, z))
  }

  predicate Sorted<T>(s: seq<T>, le: (T, T) -> bool) {
    forall i, j :: 0 <= i < j < |s| ==> le(s[i], s[j])
  }

  /** Places `x` before the first element it may precede. */
  function Insert<T>(x: T, s: seq<T>, le: (T, T) -> bool): (r: seq<T>)
    ensures multiset(r) == multiset(s) + multiset{x}
    ensures |r| == |s| + 1
  {
    if s == [] || le(x, s[0]) then [x] + s
    else
      assert s == [s[0]] + s[1..];
      [s[0]] + Insert(x, s[1..], le)
  }

  /** Inserts the elements one by one, the last element of `s` last. */
  function Sort<T>(s: seq<T>, le: (T, T) -> bool): (r: seq<T>)
    ensures multiset(r) == multiset(s)
    ensures |r| == |s|
  {
    if s == [] then []
    else
      assert s == s[..|s| - 1] + [s[|s| - 1]];
      Insert(s[|s| - 1], Sort(s[..|s| - 1], le), le)
  }

  lemma {:induction false} InsertSorted<T(!new)>(x: T, s: seq<T>, le: (T, T) -> bool)
    requires TotalPreorder(le)
    requires Sorted(s, le)
    ensures Sorted(Insert(x, s, le), le)
  {
    if s == [] || le(x, s[0]) {
      var r := [x] + s;
      forall i, j | 0 <= i < j < |r| ensures le(r[i], r[j]) {
        if i > 0 {
          assert r[i] == s[i - 1] && r[j] == s[j - 1];
        } else if j > 1 {
          assert le(s[0], s[j - 1]);
        }
      }
    } else {
      var t := Insert(x, s[1..], le);
      InsertSorted(x, s[1..], le);
      assert le(s[0], x);
      var r := [s[0]] + t;
      forall i, j | 0 <= i < j < |r| ensures le(r[i], r[j]) {
        if i == 0 {
          assert r[j] in multiset(t);
          assert r[j] in multiset(s[1..]) || r[j] == x;
          if r[j] != x {
            var k :| 0 <= k < |s[1..]| && s[1..][k] == r[j];
            assert s[k + 1] == r[j];
          }
        } else {
          assert r[i] == t[i - 1] && r[j] == t[j - 1];
        }
      }
    }
  }

  lemma {:induction false} SortSorted<T(!new)>(s: seq<T>, le: (T, T) -> bool)
    requires TotalPreorder(le)
    ensures Sorted(Sort(s, le), le)
  {
    if s != [] {
      SortSorted(s[..|s| - 1], le);
      InsertSorted(s[|s| - 1], Sort(s[..|s| - 1], le), le);
    }
  }

  /** An element that may precede every element already sorted goes to the front. */
  lemma InsertFront<T>(x: T, s: seq<T>, le: (T, T) -> bool)
    requires forall y :: y in s ==> le(x, y)
    ensures Insert(x, s, le) == [x] + s
  {
  }

  /** Sorting a list with an element appended that precedes all others puts it first. */
  lemma SortAppendFront<T>(s: seq<T>, x: T, le: (T, T) -> bool)
    requires forall y :: y in s ==> le(x, y)
    ensures Sort(s + [x], le) == [x] + Sort(s, le)
  {
    assert (s + [x])[..|s|] == s;
    var sorted := Sort(s, le);
    forall y | y in sorted ensures le(x, y) {
      assert y in multiset(sorted);
    }
    InsertFront(x, sorted, le);
  }

  /** `ORDER BY key DESC` */
  function DescBy<T>(key: T -> int): (T, T) -> bool {
    (a: T, b: T) => key(a) >= key(b)
  }

  lemma DescByTotal<T(!new)>(key: T -> int)
    ensures TotalPreorder(DescBy(key))
  {
  }

  /** `SELECT … WHERE keep(x)`: the matching elements, in order. */
  function Where<T(!new)>(s: seq<T>, keep: T -> bool): (r: seq<T>)
    ensures |r| <= |s|
    ensures forall x :: x in r <==> x in s && keep(x)
  {
    if s == [] then []
    else
      assert s == s[..|s| - 1] + [s[|s| - 1]];
      Where(s[..|s| - 1], keep) + (if keep(s[|s| - 1]) then [s[|s| - 1]] else [])
  }

  /** The elements `keep` accepts, once an element is put in front. */
  lemma {:induction false} WherePrepend<T(!new)>(x: T, s: seq<T>, keep: T -> bool)
    ensures Where([x] + s, keep) == (if keep(x) then [x] else []) + Where(s, keep)
  {
    if s != [] {
      var front := s[..|s| - 1];
      var last := s[|s| - 1];
      assert ([x] + s)[..|s|] == [x] + front;
      assert ([x] + s)[|s|] == last;
      WherePrepend(x, front, keep);
      assert Where([x] + s, keep) == Where([x] + front, keep) + (if keep(last) then [last] else []);
      assert Where(s, keep) == Where(front, keep) + (if keep(last) then [last] else []);
    }
  }

  /** Filtering works piece by piece. */
  lemma {:induction false} WhereConcat<T(!new)>(a: seq<T>, b: seq<T>, keep: T -> bool)
    ensures Where(a + b, keep) == Where(a, keep) + Where(b, keep)
    decreases |b|
  {
    if b == [] {
      assert a + b == a;
    } else {
      assert (a + b)[..|a + b| - 1] == a + b[..|b| - 1];
      WhereConcat(a, b[..|b| - 1], keep);
    }
  }

  /** The elements `keep` accepts, once an element is put at the end. */
  lemma WhereAppend<T(!new)>(s: seq<T>, x: T, keep: T -> bool)
    ensures Where(s + [x], keep) == Where(s, keep) + (if keep(x) then [x] else [])
  {
    assert (s + [x])[..|s|] == s;
  }

  /** Nothing is dropped when everything is kept. */
  lemma {:induction false} WhereAll<T(!new)>(s: seq<T>, keep: T -> bool)
    requires forall x :: x in s ==> keep(x)
    ensures Where(s, keep) == s
  {
    if s != [] {
      var front, last := s[..|s| - 1], s[|s| - 1];
      assert s == front + [last];
      assert forall x :: x in front ==> x in s;
      WhereAll(front, keep);
      WhereAppend(front, last, keep);
    }
  }

  /** Nothing is kept when everything is dropped. */
  lemma {:induction false} WhereNone<T(!new)>(s: seq<T>, keep: T -> bool)
    requires forall x :: x in s ==> !keep(x)
    ensures Where(s, keep) == []
  {
    if s != [] {
      var front, last := s[..|s| - 1], s[|s| - 1];
      assert s == front + [last];
      assert forall x :: x in front ==> x in s;
      WhereNone(front, keep);
      WhereAppend(front, last, keep);
    }
  }

  /** Filtering keeps the order of what it keeps. */
  lemma {:induction false} WhereSorted<T(!new)>(s: seq<T>, keep: T -> bool, le: (T, T) -> bool)
    requires Sorted(s, le)
    ensures Sorted(Where(s, keep), le)
  {
    if s != [] {
      var init := s[..|s| - 1];
      assert Sorted(init, le);
      WhereSorted(init, keep, le);
      var w := Where(init, keep);
      if keep(s[|s| - 1]) {
        var r := w + [s[|s| - 1]];
        forall i, j | 0 <= i < j < |r| ensures le(r[i], r[j]) {
          if j == |r| - 1 {
            assert r[i] in init;
            var k :| 0 <= k < |init| && init[k] == r[i];
            assert le(s[k], s[|s| - 1]);
          } else {
            assert r[i] == w[i] && r[j] == w[j];
          }
        }
      }
    }
  }

  /** `ORDER BY key DESC`: sorted by descending key, nothing lost. */
  function OrderByDesc<T(!new)>(s: seq<T>, key: T -> int): (r: seq<T>)
    ensures multiset(r) == multiset(s)
    ensures |r| == |s|
    ensures Sorted(r, DescBy(key))
    ensures forall i, j :: 0 <= i < j < |r| ==> key(r[i]) >= key(r[j])
  {
    DescByTotal(key);
    SortSorted(s, DescBy(key));
    var r := Sort(s, DescBy(key));
    assert forall i, j :: 0 <= i < j < |r| ==> DescBy(key)(r[i], r[j]);
    r
  }

  /** The rows `WHERE keep ORDER BY key DESC` yields: exactly the matching ones, newest key first. */
  function Query<T(!new)>(s: seq<T>, keep: T -> bool, key: T -> int): (r: seq<T>)
    ensures forall x :: x in r <==> x in s && keep(x)
    ensures multiset(r) == multiset(Where(s, keep))
    ensures forall i, j :: 0 <= i < j < |r| ==> key(r[i]) >= key(r[j])
  {
    var w := Where(s, keep);
    var r := OrderByDesc(w, key);
    assert forall x :: x in r <==> x in multiset(w);
    r
  }
}
