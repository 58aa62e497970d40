/** Insertion into ascending order, and why a filtered list stays a subsequence. Stands for Python's `sorted` on
    distinct keys. */
module Sorting {
  import opened Common

  ghost predicate Order<T(!new)>(less: (T, T) -> bool) {
    && (forall a :: !less(a, a))
    && (forall a, b, c :: less(a, b) && less(b, c) ==> less(a, c))
  }

  ghost predicate Comparable<T>(less: (T, T) -> bool, s: seq<T>) {
    forall a, b :: a in s && b in s ==> a == b || less(a, b) || less(b, a)
  }

  ghost predicate Ascending<T>(less: (T, T) -> bool, s: seq<T>) {
    forall i, j :: 0 <= i < j < |s| ==> less(s[i], s[j])
  }

  function Insert<T>(less: (T, T) -> bool, x: T, s: seq<T>): seq<T> {
    if s == [] then [x] else if less(x, s[0]) then [x] + s else [s[0]] + Insert(less, x, s[1..])
  }

  function Sorted<T>(less: (T, T) -> bool, s: seq<T>): seq<T> {
    if s == [] then [] else Insert(less, Last(s), Sorted(less, Init(s)))
  }

  lemma {:induction false} InsertAscends<T(!new)>(less: (T, T) -> bool, x: T, s: seq<T>)
    requires Order(less) && Ascending(less, s)
    requires forall y :: y in s ==> less(x, y) || less(y, x)
    ensures Ascending(less, Insert(less, x, s))
    ensures forall y :: y in Insert(less, x, s) <==> y in s || y == x
  {
    if s != [] {
      if less(x, s[0]) {
        forall i | 0 <= i < |s| ensures less(x, s[i]) { if i > 0 { assert less(s[0], s[i]); } }
      } else {
        var rest := Insert(less, x, s[1..]);
        InsertAscends(less, x, s[1..]);
        assert s == [s[0]] + s[1..];
        assert s[0] in s;
        forall i | 0 <= i < |rest| ensures less(s[0], rest[i]) {
          assert rest[i] in rest;
          if rest[i] != x {
            var k :| 0 <= k < |s[1..]| && s[1..][k] == rest[i];
            assert s[k + 1] == rest[i];
          }
        }
      }
    }
  }

  /** Sorting a duplicate-free list enumerates it in ascending order. */
  lemma {:induction false} SortedAscends<T(!new)>(less: (T, T) -> bool, s: seq<T>)
    requires Order(less) && Distinct(s) && Comparable(less, s)
    ensures Ascending(less, Sorted(less, s))
    ensures forall y :: y in Sorted(less, s) <==> y in s
  {
    if s != [] {
      var front, x := Init(s), Last(s);
      assert s == front + [x];
      assert forall y :: y in front ==> y in s;
      SortedAscends(less, front);
      forall y | y in front ensures less(x, y) || less(y, x) {
        var k :| 0 <= k < |front| && front[k] == y;
        assert s[k] == y && s[|s| - 1] == x && x in s;
      }
      InsertAscends(less, x, Sorted(less, front));
    }
  }

  /** Two ascending enumerations of the same elements are equal. */
  lemma {:induction false} AscendingIsUnique<T(!new)>(less: (T, T) -> bool, a: seq<T>, b: seq<T>)
    requires Order(less) && Ascending(less, a) && Ascending(less, b)
    requires forall x :: x in a <==> x in b
    ensures a == b
    decreases |a|
  {
    assert a != [] ==> a[0] in b;
    assert b != [] ==> b[0] in a;
    if a != [] {
      var i :| 0 <= i < |b| && b[i] == a[0];
      var j :| 0 <= j < |a| && a[j] == b[0];
      var x, y := a[0], b[0];
      assert i > 0 ==> less(y, x);
      assert j > 0 ==> less(x, y);
      assert x == y;
      HeadIsNotInTail(less, a);
      HeadIsNotInTail(less, b);
      forall x ensures x in a[1..] <==> x in b[1..] {
        assert x in a <==> x == a[0] || x in a[1..];
        assert x in b <==> x == b[0] || x in b[1..];
      }
      AscendingIsUnique(less, a[1..], b[1..]);
    }
  }

  lemma HeadIsNotInTail<T(!new)>(less: (T, T) -> bool, a: seq<T>)
    requires Order(less) && Ascending(less, a) && a != []
    ensures a[0] !in a[1..]
  {
    forall k | 0 <= k < |a[1..]| ensures a[1..][k] != a[0] {
      assert less(a[0], a[k + 1]);
    }
  }

  /** `a` is `b` with some elements left out. */
  predicate Subsequence<T(==)>(a: seq<T>, b: seq<T>) {
    a == [] || (b != [] && ((a[0] == b[0] && Subsequence(a[1..], b[1..])) || Subsequence(a, b[1..])))
  }

  ghost function Only<T(!new)>(s: seq<T>, keep: T -> bool): seq<T> {
    if s == [] then [] else (if keep(s[0]) then [s[0]] else []) + Only(s[1..], keep)
  }

  lemma {:induction false} OnlyIsSubsequence<T(!new)>(less: (T, T) -> bool, s: seq<T>, keep: T -> bool)
    requires Order(less) && Ascending(less, s)
    ensures Subsequence(Only(s, keep), s)
    ensures Ascending(less, Only(s, keep))
    ensures forall x :: x in Only(s, keep) <==> x in s && keep(x)
  {
    if s != [] {
      OnlyIsSubsequence(less, s[1..], keep);
      assert s == [s[0]] + s[1..];
      var rest := Only(s[1..], keep);
      if keep(s[0]) {
        assert Only(s, keep)[1..] == rest;
        forall i | 0 <= i < |rest| ensures less(s[0], rest[i]) {
          assert rest[i] in rest;
          var k :| 0 <= k < |s[1..]| && s[1..][k] == rest[i];
          assert s[k + 1] == rest[i];
        }
      } else {
        assert Only(s, keep) == rest;
      }
    }
  }

  /** Fewer elements in the same order: a subsequence. */
  lemma FewerElementsIsSubsequence<T(!new)>(less: (T, T) -> bool, a: seq<T>, b: seq<T>)
    requires Order(less) && Ascending(less, a) && Ascending(less, b)
    requires forall x :: x in a ==> x in b
    ensures Subsequence(a, b)
  {
    OnlyIsSubsequence(less, b, x => x in a);
    AscendingIsUnique(less, a, Only(b, x => x in a));
  }

  // ----- strings

  lemma BelowIsOrder()
    ensures Order(Below)
  {
    forall a ensures !Below(a, a) { BelowIrreflexive(a); }
    forall a, b, c | Below(a, b) && Below(b, c) ensures Below(a, c) { BelowTransitive(a, b, c); }
  }

  lemma NamesSort(names: seq<string>)
    requires Distinct(names)
    ensures Ascending(Below, Sorted(Below, names)) && forall s :: s in Sorted(Below, names) <==> s in names
  {
    BelowIsOrder();
    forall a, b | a in names && b in names ensures a == b || Below(a, b) || Below(b, a) { BelowTotal(a, b); }
    SortedAscends(Below, names);
  }

  /** The elements of a set of strings in ascending order, however the set is walked. */
  method SortedNames(keys: set<string>) returns (names: seq<string>)
    ensures Ascending(Below, names) && forall s :: s in names <==> s in keys
  {
    var found: seq<string>, todo := [], keys;
    while todo != {}
      invariant todo <= keys && Distinct(found)
      invariant forall s :: s in found <==> s in keys && s !in todo
      decreases todo
    {
      var s :| s in todo;
      found, todo := found + [s], todo - {s};
    }
    NamesSort(found);
    names := Sorted(Below, found);
  }
}
