/** A stable sort by an integer key. JavaScript's `Array.prototype.sort` is stable, so with a
    comparator `(a, b) => key(a) - key(b)` it yields exactly the stable ordering by `key`; this module
    computes that ordering by insertion and proves it sorted, a permutation and stable. */
module Sorting {
  import opened Lists

  predicate SortedBy<T>(s: seq<T>, key: T -> int) {
    forall i, j :: 0 <= i < j < |s| ==> key(s[i]) <= key(s[j])
  }

  /** Elements whose key is `k`: the class of elements a stable sort must keep in input order. */
  function KeyIs<T>(key: T -> int, k: int): T -> bool {
    x => key(x) == k
  }

  /** Inserts `x` after every element whose key is not larger than its own. */
  function Insert<T>(s: seq<T>, x: T, key: T -> int): seq<T> {
    if s == [] then [x]
    else if key(x) < key(s[0]) then [x] + s
    else [s[0]] + Insert(s[1..], x, key)
  }

  /** Insertion adds `x` and loses nothing. */
  lemma {:induction false} InsertPermutes<T>(s: seq<T>, x: T, key: T -> int)
    ensures multiset(Insert(s, x, key)) == multiset(s) + multiset{x}
  {
    if s != [] && key(x) >= key(s[0]) {
      InsertPermutes(s[1..], x, key);
      assert s == [s[0]] + s[1..];
    }
  }

  /** A lower bound of the keys of `s` and of `x` bounds the keys of the insertion's result. */
  lemma {:induction false} InsertLowerBound<T>(s: seq<T>, x: T, key: T -> int, b: int)
    requires b <= key(x) && forall j :: 0 <= j < |s| ==> b <= key(s[j])
    ensures forall j :: 0 <= j < |Insert(s, x, key)| ==> b <= key(Insert(s, x, key)[j])
  {
    if s != [] && key(x) >= key(s[0]) {
      InsertLowerBound(s[1..], x, key, b);
      assert Insert(s, x, key) == [s[0]] + Insert(s[1..], x, key);
    }
  }

  /** Inserting into a sorted list keeps it sorted. */
  lemma {:induction false} InsertSorted<T>(s: seq<T>, x: T, key: T -> int)
    requires SortedBy(s, key)
    ensures SortedBy(Insert(s, x, key), key)
  {
    if s != [] && key(x) >= key(s[0]) {
      var rest := Insert(s[1..], x, key);
      InsertSorted(s[1..], x, key);
      InsertLowerBound(s[1..], x, key, key(s[0]));
      var r := Insert(s, x, key);
      assert r == [s[0]] + rest;
      forall i, j | 0 <= i < j < |r| ensures key(r[i]) <= key(r[j]) {
        assert r[j] == rest[j - 1];
        if i > 0 {
          assert r[i] == rest[i - 1];
        }
      }
    }
  }

  function SortByKey<T(==)>(s: seq<T>, key: T -> int): (r: seq<T>)
    ensures multiset(r) == multiset(s)
    ensures SortedBy(r, key)
  {
    if s == [] then []
    else
      assert s == s[..|s| - 1] + [s[|s| - 1]];
      InsertSorted(SortByKey(s[..|s| - 1], key), s[|s| - 1], key);
      InsertPermutes(SortByKey(s[..|s| - 1], key), s[|s| - 1], key);
      Insert(SortByKey(s[..|s| - 1], key), s[|s| - 1], key)
  }

  /** Inserting `x` before a sorted list whose keys all exceed its own puts it first among its key. */
  lemma InsertFrontKeepsKeyOrder<T>(s: seq<T>, x: T, key: T -> int, k: int)
    requires SortedBy(s, key) && s != [] && key(x) < key(s[0])
    ensures Filter(Insert(s, x, key), KeyIs(key, k))
         == Filter(s, KeyIs(key, k)) + (if key(x) == k then [x] else [])
  {
    var p := KeyIs(key, k);
    FilterSingleton(x, p);
    assert Insert(s, x, key) == [x] + s;
    FilterConcat([x], s, p);
    if key(x) == k {
      assert forall y :: y in s ==> !p(y) by {
        assert forall i :: 0 <= i < |s| ==> key(s[0]) <= key(s[i]);
      }
      FilterKeepsNone(s, p);
    }
  }

  /** Inserting `x` into a sorted list adds it at the end of the elements with its own key. */
  lemma {:induction false} InsertKeepsKeyOrder<T>(s: seq<T>, x: T, key: T -> int, k: int)
    requires SortedBy(s, key)
    ensures Filter(Insert(s, x, key), KeyIs(key, k))
         == Filter(s, KeyIs(key, k)) + (if key(x) == k then [x] else [])
  {
    var p := KeyIs(key, k);
    var tail := if key(x) == k then [x] else [];
    if s == [] {
      FilterSingleton(x, p);
      assert Insert(s, x, key) == [x];
    } else if key(x) < key(s[0]) {
      InsertFrontKeepsKeyOrder(s, x, key, k);
    } else {
      var rest := Insert(s[1..], x, key);
      InsertKeepsKeyOrder(s[1..], x, key, k);
      assert Insert(s, x, key) == [s[0]] + rest;
      ConsKeepsFilterGrowth(s[0], s[1..], rest, p, tail);
      assert s == [s[0]] + s[1..];
    }
  }

  /** Putting the same element in front of two lists keeps the relation between what a filter keeps of them. */
  lemma ConsKeepsFilterGrowth<T>(a: T, t: seq<T>, u: seq<T>, p: T -> bool, tail: seq<T>)
    requires Filter(u, p) == Filter(t, p) + tail
    ensures Filter([a] + u, p) == Filter([a] + t, p) + tail
  {
    var head := Filter([a], p);
    calc {
      Filter([a] + u, p);
      { FilterConcat([a], u, p); }
      head + Filter(u, p);
      head + (Filter(t, p) + tail);
      (head + Filter(t, p)) + tail;
      { FilterConcat([a], t, p); }
      Filter([a] + t, p) + tail;
    }
  }

  /** Stability: the elements with any one key appear in the output in their input order. */
  lemma {:induction false} SortIsStable<T>(s: seq<T>, key: T -> int, k: int)
    ensures Filter(SortByKey(s, key), KeyIs(key, k)) == Filter(s, KeyIs(key, k))
  {
    if s != [] {
      var p := KeyIs(key, k);
      var init, last := s[..|s| - 1], s[|s| - 1];
      FilterSingleton(last, p);
      calc {
        Filter(SortByKey(s, key), p);
        Filter(Insert(SortByKey(init, key), last, key), p);
        { InsertKeepsKeyOrder(SortByKey(init, key), last, key, k); }
        Filter(SortByKey(init, key), p) + (if key(last) == k then [last] else []);
        { SortIsStable(init, key, k); }
        Filter(init, p) + Filter([last], p);
        { FilterConcat(init, [last], p); }
        Filter(init + [last], p);
        { assert s == init + [last]; }
        Filter(s, p);
      }
    }
  }
}
