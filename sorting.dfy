/**
 * Go's `sort.Strings` and `sort.Slice(xs, by ID)`, modelled as an insertion
 * sort on a key. Go's `sort.Slice` is not stable; this model is the stable
 * outcome, one of those Go may produce.
 */
module Sorting {
  import opened Strings

  /** Ascending by key in Go's string order. */
  ghost predicate SortedBy<T>(xs: seq<T>, key: T -> string) {
    forall i, j :: 0 <= i < j < |xs| ==> LexLe(key(xs[i]), key(xs[j]))
  }

  /** Ascending with no repeated element: the shape of sorted map keys. */
  ghost predicate StrictlySorted(xs: seq<string>) {
    forall i, j :: 0 <= i < j < |xs| ==> LexLe(xs[i], xs[j]) && xs[i] != xs[j]
  }

  function InsertBy<T>(x: T, xs: seq<T>, key: T -> string): seq<T> {
    if xs == [] || LexLe(key(x), key(xs[0])) then [x] + xs
    else [xs[0]] + InsertBy(x, xs[1..], key)
  }

  function SortBy<T>(xs: seq<T>, key: T -> string): seq<T> {
    if xs == [] then [] else InsertBy(xs[0], SortBy(xs[1..], key), key)
  }

  function Identity(s: string): string { s }

  /** Go's `sort.Strings`. */
  function SortStrings(xs: seq<string>): seq<string> {
    SortBy(xs, Identity)
  }

  /** Inserting adds exactly one occurrence of `x`. */
  lemma {:induction false} InsertByPerm<T>(x: T, xs: seq<T>, key: T -> string)
    ensures multiset(InsertBy(x, xs, key)) == multiset(xs) + multiset{x}
  {
    if xs != [] && !LexLe(key(x), key(xs[0])) {
      InsertByPerm(x, xs[1..], key);
      assert xs == [xs[0]] + xs[1..];
    }
  }

  lemma {:induction false} InsertBySorted<T>(x: T, xs: seq<T>, key: T -> string)
    requires SortedBy(xs, key)
    ensures SortedBy(InsertBy(x, xs, key), key)
    ensures multiset(InsertBy(x, xs, key)) == multiset(xs) + multiset{x}
  {
    InsertByPerm(x, xs, key);
    if xs == [] || LexLe(key(x), key(xs[0])) {
      forall k | 1 <= k < |xs| + 1
        ensures LexLe(key(x), key(([x] + xs)[k]))
      {
        if k > 1 {
          LexLeTransitive(key(x), key(xs[0]), key(xs[k - 1]));
        }
      }
    } else {
      LexLeTotal(key(x), key(xs[0]));
      InsertBySorted(x, xs[1..], key);
      var r := InsertBy(x, xs[1..], key);
      forall k | 0 <= k < |r|
        ensures LexLe(key(xs[0]), key(r[k]))
      {
        assert r[k] in multiset(r);
        if r[k] != x {
          assert r[k] in multiset(xs[1..]);
          var m :| 0 <= m < |xs[1..]| && xs[1..][m] == r[k];
          assert xs[1 + m] == r[k];
        }
      }
    }
  }

  /** The sorted sequence is ascending by key and a permutation of the input. */
  lemma {:induction false} SortBySorted<T>(xs: seq<T>, key: T -> string)
    ensures SortedBy(SortBy(xs, key), key)
    ensures multiset(SortBy(xs, key)) == multiset(xs)
  {
    if xs != [] {
      SortBySorted(xs[1..], key);
      InsertBySorted(xs[0], SortBy(xs[1..], key), key);
      assert xs == [xs[0]] + xs[1..];
    }
  }

  /** A sorted sequence without repeated elements is strictly ascending. */
  lemma SortedDistinctIsStrict(xs: seq<string>)
    requires SortedBy(xs, Identity)
    requires forall i, j :: 0 <= i < j < |xs| ==> xs[i] != xs[j]
    ensures StrictlySorted(xs)
  {
    assert forall i :: 0 <= i < |xs| ==> Identity(xs[i]) == xs[i];
  }

  /** Sorting a sequence with distinct elements yields the strictly ascending one. */
  lemma SortStringsStrict(xs: seq<string>)
    requires forall i, j :: 0 <= i < j < |xs| ==> xs[i] != xs[j]
    ensures StrictlySorted(SortStrings(xs))
    ensures multiset(SortStrings(xs)) == multiset(xs)
  {
    var r := SortStrings(xs);
    SortBySorted(xs, Identity);
    forall i, j | 0 <= i < j < |r| ensures r[i] != r[j] {
      if r[i] == r[j] {
        assert multiset(r)[r[i]] >= 2 by {
          assert r == r[..i] + [r[i]] + r[i + 1..j] + [r[j]] + r[j + 1..];
        }
        DistinctCount(xs, r[i]);
        assert false;
      }
    }
    SortedDistinctIsStrict(r);
  }

  lemma {:induction false} DistinctCount(xs: seq<string>, x: string)
    requires forall i, j :: 0 <= i < j < |xs| ==> xs[i] != xs[j]
    ensures multiset(xs)[x] <= 1
  {
    if xs != [] {
      DistinctCount(xs[1..], x);
      assert xs == [xs[0]] + xs[1..];
      if xs[0] == x {
        assert x !in xs[1..];
      }
    }
  }

  /**
   * A set of strings has exactly one strictly ascending arrangement: the
   * order in which Go's random map iteration produced the keys cannot
   * matter once they are sorted.
   */
  lemma {:induction false} StrictlySortedUnique(a: seq<string>, b: seq<string>)
    requires StrictlySorted(a) && StrictlySorted(b)
    requires forall x :: x in a <==> x in b
    ensures a == b
    decreases |a|
  {
    assert 0 < |a| ==> a[0] in b;
    assert 0 < |b| ==> b[0] in a;
    if a != [] && b != [] {
      assert a[0] in b && b[0] in a;
      var i :| 0 <= i < |b| && b[i] == a[0];
      var j :| 0 <= j < |a| && a[j] == b[0];
      assert LexLe(b[0], a[0]) by { if i == 0 { LexLeReflexive(a[0]); } }
      assert LexLe(a[0], b[0]) by { if j == 0 { LexLeReflexive(b[0]); } }
      LexLeAntisymmetric(a[0], b[0]);
      forall x ensures x in a[1..] <==> x in b[1..] {
        if x in a[1..] {
          var k :| 1 <= k < |a| && a[k] == x;
          assert x in b && x != b[0];
          var m :| 0 <= m < |b| && b[m] == x;
          assert m != 0;
          assert b[1..][m - 1] == x;
        }
        if x in b[1..] {
          var k :| 1 <= k < |b| && b[k] == x;
          assert x in a && x != a[0];
          var m :| 0 <= m < |a| && a[m] == x;
          assert m != 0;
          assert a[1..][m - 1] == x;
        }
      }
      StrictlySortedUnique(a[1..], b[1..]);
      assert a == [a[0]] + a[1..] && b == [b[0]] + b[1..];
    }
  }
}
