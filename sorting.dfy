/**
 * Ordering a list of transactions by amount, as Stream.sorted with
 * Comparator.comparingDouble(...) (and its reversed()) does it: a stable
 * sort, so transactions of equal amount keep their relative order. It is
 * written once, for any element type with an integer key.
 */
module Sorting {

  /** Sort.Direction */
  datatype Direction = ASC | DESC

  /** `a` may stand before `b` in the given direction. */
  predicate InOrder(dir: Direction, a: int, b: int) {
    if dir == ASC then a <= b else a >= b
  }

  /** Every element stands in order with every later one. */
  ghost predicate SortedBy<T>(s: seq<T>, key: T -> int, dir: Direction) {
    forall i, j :: 0 <= i < j < |s| ==> InOrder(dir, key(s[i]), key(s[j]))
  }

  /** The elements whose key is v, in the order they appear in s. */
  function WithKey<T>(s: seq<T>, key: T -> int, v: int): seq<T> {
    if s == [] then []
    else (if key(s[0]) == v then [s[0]] else []) + WithKey(s[1..], key, v)
  }

  /** Inserts x in front of the first element it may stand before. */
  function Insert<T>(x: T, s: seq<T>, key: T -> int, dir: Direction): (r: seq<T>)
    ensures multiset(r) == multiset(s) + multiset{x}
  {
    if s == [] || InOrder(dir, key(x), key(s[0])) then [x] + s
    else
      assert s == [s[0]] + s[1..];
      [s[0]] + Insert(x, s[1..], key, dir)
  }

  /** Insertion sort: the stable sort of s by key in the given direction. */
  function SortBy<T>(s: seq<T>, key: T -> int, dir: Direction): (r: seq<T>)
    ensures multiset(r) == multiset(s)
  {
    if s == [] then []
    else
      assert s == [s[0]] + s[1..];
      Insert(s[0], SortBy(s[1..], key, dir), key, dir)
  }

  lemma {:induction false} InsertSorted<T>(x: T, s: seq<T>, key: T -> int, dir: Direction)
    requires SortedBy(s, key, dir)
    ensures SortedBy(Insert(x, s, key, dir), key, dir)
  {
    if s == [] || InOrder(dir, key(x), key(s[0])) {
    } else {
      var rest := Insert(x, s[1..], key, dir);
      InsertSorted(x, s[1..], key, dir);
      forall j | 0 <= j < |rest|
        ensures InOrder(dir, key(s[0]), key(rest[j]))
      {
        assert rest[j] in multiset(rest);
        assert rest[j] == x || rest[j] in multiset(s[1..]);
        if rest[j] != x {
          assert rest[j] in s[1..];
        }
      }
    }
  }

  /** The result of SortBy is ordered. */
  lemma {:induction false} SortBySorted<T>(s: seq<T>, key: T -> int, dir: Direction)
    ensures SortedBy(SortBy(s, key, dir), key, dir)
  {
    if s != [] {
      SortBySorted(s[1..], key, dir);
      InsertSorted(s[0], SortBy(s[1..], key, dir), key, dir);
    }
  }

  /** Inserting x only adds x to the run of its own key, at the front. */
  lemma {:induction false} InsertWithKey<T>(x: T, s: seq<T>, key: T -> int, dir: Direction, v: int)
    ensures WithKey(Insert(x, s, key, dir), key, v)
         == (if key(x) == v then [x] else []) + WithKey(s, key, v)
  {
    if s == [] || InOrder(dir, key(x), key(s[0])) {
      assert ([x] + s)[1..] == s;
    } else {
      InsertWithKey(x, s[1..], key, dir, v);
      assert ([s[0]] + Insert(x, s[1..], key, dir))[1..] == Insert(x, s[1..], key, dir);
    }
  }

  /** Stability: for every amount, the elements with that amount keep their relative order. */
  lemma {:induction false} SortByStable<T>(s: seq<T>, key: T -> int, dir: Direction, v: int)
    ensures WithKey(SortBy(s, key, dir), key, v) == WithKey(s, key, v)
  {
    if s != [] {
      SortByStable(s[1..], key, dir, v);
      InsertWithKey(s[0], SortBy(s[1..], key, dir), key, dir, v);
    }
  }
}
