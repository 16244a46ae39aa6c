/**
 * The list views sort fetched records with Swift's `sort(by:)`, passing the
 * article-insensitive comparison of a sort field. The library sort is not part
 * of the app; it is stood for here by an insertion sort, and the views rely
 * only on what any correct sort promises: the result is ordered and is a
 * permutation of the input.
 */
module Sorting {
  import opened Text
  import opened Anarthrous

  /** No element's key comes after the key of a later element. */
  predicate SortedBy<T>(xs: seq<T>, key: T -> string) {
    forall i, j :: 0 <= i < j < |xs| ==> LexLessEq(key(xs[i]), key(xs[j]))
  }

  /** `x` goes in front of the first element whose key comes strictly after its own. */
  function Insert<T>(x: T, xs: seq<T>, key: T -> string): (r: seq<T>)
    ensures multiset(r) == multiset(xs) + multiset{x}
  {
    if xs == [] || LexCompare(key(x), key(xs[0])) == OrderedAscending then [x] + xs
    else
      assert xs == [xs[0]] + xs[1..];
      [xs[0]] + Insert(x, xs[1..], key)
  }

  /** An element whose key comes after no key of a sorted list can go in front of it. */
  lemma ConsSorted<T>(y: T, ys: seq<T>, key: T -> string)
    requires SortedBy(ys, key)
    requires forall e :: e in ys ==> LexLessEq(key(y), key(e))
    ensures SortedBy([y] + ys, key)
  {
    var r := [y] + ys;
    forall i, j | 0 <= i < j < |r| ensures LexLessEq(key(r[i]), key(r[j])) {
      assert r[j] == ys[j - 1] && r[j] in ys;
      if i > 0 {
        assert r[i] == ys[i - 1];
      }
    }
  }

  /** Inserting into a sorted list keeps it sorted. */
  lemma {:induction false} InsertSorted<T>(x: T, xs: seq<T>, key: T -> string)
    requires SortedBy(xs, key)
    ensures SortedBy(Insert(x, xs, key), key)
  {
    if xs == [] {
    } else if LexCompare(key(x), key(xs[0])) == OrderedAscending {
      forall e | e in xs ensures LexLessEq(key(x), key(e)) {
        var k :| 0 <= k < |xs| && xs[k] == e;
        if k > 0 {
          assert LexLessEq(key(xs[0]), key(xs[k]));
          LexLessEqTransitive(key(x), key(xs[0]), key(e));
        }
      }
      ConsSorted(x, xs, key);
    } else {
      var rest := Insert(x, xs[1..], key);
      InsertSorted(x, xs[1..], key);
      LexCompareFlip(key(x), key(xs[0]));
      forall e | e in rest ensures LexLessEq(key(xs[0]), key(e)) {
        assert e in multiset(rest);
        if e != x {
          assert e in xs[1..];
          var k :| 0 <= k < |xs| - 1 && xs[1..][k] == e;
          assert xs[k + 1] == e;
        }
      }
      ConsSorted(xs[0], rest, key);
    }
  }

  /** Stands for `sort(by:)`: an ordered permutation of the input. */
  method Sort<T>(xs: seq<T>, key: T -> string) returns (ys: seq<T>)
    ensures SortedBy(ys, key)
    ensures multiset(ys) == multiset(xs)
  {
    ys := [];
    for i := 0 to |xs|
      invariant SortedBy(ys, key)
      invariant multiset(ys) == multiset(xs[..i])
    {
      InsertSorted(xs[i], ys, key);
      ys := Insert(xs[i], ys, key);
      assert xs[..i + 1] == xs[..i] + [xs[i]];
    }
    assert xs[..|xs|] == xs;
  }

  /**
   * Ordered as `sort { field($0).anarthrousCompare(field($1)) == .orderedAscending }`
   * leaves a list: no element is strictly before an element ahead of it.
   */
  predicate AnarthrousSorted<T>(xs: seq<T>, field: T -> string) {
    forall i, j :: 0 <= i < j < |xs| ==> AnarthrousCompare(field(xs[j]), field(xs[i])) != OrderedAscending
  }

  /** The sort the list views perform, on the field the user sorts by. */
  method SortAnarthrous<T>(xs: seq<T>, field: T -> string) returns (ys: seq<T>)
    ensures AnarthrousSorted(ys, field)
    ensures multiset(ys) == multiset(xs)
  {
    var key := (x: T) => SortKey(field(x));
    ys := Sort(xs, key);
    forall i, j | 0 <= i < j < |ys|
      ensures AnarthrousCompare(field(ys[j]), field(ys[i])) != OrderedAscending
    {
      LexCompareFlip(key(ys[i]), key(ys[j]));
    }
  }
}
