/**
 * The stable descending sort that `Array.prototype.sort` performs with a
 * comparator `(a, b) => key(b) - key(a)`, written as an insertion sort over
 * an abstract key so that its properties hold for any key.
 */
module Sorting {
  /** Keys never increase from left to right. */
  predicate Descending<T>(s: seq<T>, key: T -> int) {
    forall i, j :: 0 <= i < j < |s| ==> key(s[i]) >= key(s[j])
  }

  /** No two elements share a value of `f`. */
  predicate Unique<T, U(==)>(s: seq<T>, f: T -> U) {
    forall i, j :: 0 <= i < j < |s| ==> f(s[i]) != f(s[j])
  }

  /** `x` goes after every element whose key is at least its own and before the first smaller one. */
  function InsertDesc<T>(sorted: seq<T>, x: T, key: T -> int): (r: seq<T>)
    ensures |r| == |sorted| + 1
    ensures multiset(r) == multiset(sorted) + multiset{x}
  {
    if sorted == [] then [x]
    else if key(sorted[0]) < key(x) then [x] + sorted
    else
      assert sorted == [sorted[0]] + sorted[1..];
      [sorted[0]] + InsertDesc(sorted[1..], x, key)
  }

  /** Insertion sort, each element inserted in turn after those already placed. */
  function SortDesc<T>(s: seq<T>, key: T -> int): (r: seq<T>)
    ensures multiset(r) == multiset(s)
  {
    if s == [] then []
    else
      assert s == s[..|s| - 1] + [s[|s| - 1]];
      InsertDesc(SortDesc(s[..|s| - 1], key), s[|s| - 1], key)
  }

  /** Every element of `InsertDesc(sorted, x, key)` is `x` or comes from `sorted`. */
  lemma InsertDescMembers<T>(sorted: seq<T>, x: T, key: T -> int, i: nat)
    requires i < |InsertDesc(sorted, x, key)|
    ensures var r := InsertDesc(sorted, x, key); r[i] == x || exists j :: 0 <= j < |sorted| && sorted[j] == r[i]
  {
    var r := InsertDesc(sorted, x, key);
    assert r[i] in multiset(sorted) + multiset{x};
  }

  /** Inserting into a descending sequence keeps it descending. */
  lemma {:induction false} InsertDescKeepsOrder<T>(sorted: seq<T>, x: T, key: T -> int)
    requires Descending(sorted, key)
    ensures Descending(InsertDesc(sorted, x, key), key)
  {
    if sorted != [] && key(sorted[0]) >= key(x) {
      var rest := sorted[1..];
      InsertDescKeepsOrder(rest, x, key);
      var r := InsertDesc(sorted, x, key);
      forall j | 1 <= j < |r|
        ensures key(r[0]) >= key(r[j])
      {
        InsertDescMembers(rest, x, key, j - 1);
      }
    }
  }

  /** The sort yields a descending sequence. */
  lemma {:induction false} SortDescOrdered<T>(s: seq<T>, key: T -> int)
    ensures Descending(SortDesc(s, key), key)
  {
    if s != [] {
      SortDescOrdered(s[..|s| - 1], key);
      InsertDescKeepsOrder(SortDesc(s[..|s| - 1], key), s[|s| - 1], key);
    }
  }

  /** Inserting an element with a new `f`-value keeps the `f`-values distinct. */
  lemma {:induction false} InsertDescKeepsUnique<T, U>(sorted: seq<T>, x: T, key: T -> int, f: T -> U)
    requires Unique(sorted, f)
    requires forall j :: 0 <= j < |sorted| ==> f(sorted[j]) != f(x)
    ensures Unique(InsertDesc(sorted, x, key), f)
  {
    if sorted != [] && key(sorted[0]) >= key(x) {
      var rest := sorted[1..];
      InsertDescKeepsUnique(rest, x, key, f);
      var r := InsertDesc(sorted, x, key);
      forall j | 1 <= j < |r|
        ensures f(r[0]) != f(r[j])
      {
        InsertDescMembers(rest, x, key, j - 1);
      }
    }
  }

  /** Sorting keeps the `f`-values distinct. */
  lemma {:induction false} SortDescKeepsUnique<T, U>(s: seq<T>, key: T -> int, f: T -> U)
    requires Unique(s, f)
    ensures Unique(SortDesc(s, key), f)
  {
    if s != [] {
      var init, last := s[..|s| - 1], s[|s| - 1];
      SortDescKeepsUnique(init, key, f);
      var sorted := SortDesc(init, key);
      forall j | 0 <= j < |sorted|
        ensures f(sorted[j]) != f(last)
      {
        assert sorted[j] in multiset(init);
      }
      InsertDescKeepsUnique(sorted, last, key, f);
    }
  }

  /** The elements whose key is `k`, in order. */
  function WithKey<T>(s: seq<T>, key: T -> int, k: int): seq<T> {
    if s == [] then []
    else (if key(s[0]) == k then [s[0]] else []) + WithKey(s[1..], key, k)
  }

  lemma {:induction false} WithKeyAppend<T>(s: seq<T>, t: seq<T>, key: T -> int, k: int)
    ensures WithKey(s + t, key, k) == WithKey(s, key, k) + WithKey(t, key, k)
  {
    if s == [] {
      assert s + t == t;
    } else {
      var head: seq<T> := if key(s[0]) == k then [s[0]] else [];
      assert (s + t)[0] == s[0] && (s + t)[1..] == s[1..] + t;
      WithKeyAppend(s[1..], t, key, k);
      calc {
        WithKey(s + t, key, k);
        head + WithKey(s[1..] + t, key, k);
        head + (WithKey(s[1..], key, k) + WithKey(t, key, k));
        (head + WithKey(s[1..], key, k)) + WithKey(t, key, k);
      }
    }
  }

  lemma {:induction false} WithKeyAbsent<T>(s: seq<T>, key: T -> int, k: int)
    requires forall i :: 0 <= i < |s| ==> key(s[i]) < k
    ensures WithKey(s, key, k) == []
  {
    if s != [] {
      WithKeyAbsent(s[1..], key, k);
    }
  }

  /** Insertion puts `x` after every element of the same key. */
  lemma {:induction false} InsertDescWithKey<T>(sorted: seq<T>, x: T, key: T -> int, k: int)
    requires Descending(sorted, key)
    ensures WithKey(InsertDesc(sorted, x, key), key, k) ==
            WithKey(sorted, key, k) + (if key(x) == k then [x] else [])
    decreases |sorted|, 1
  {
    if sorted == [] {
      assert InsertDesc(sorted, x, key) == [x];
    } else if key(sorted[0]) < key(x) {
      InsertFrontWithKey(sorted, x, key, k);
    } else {
      InsertBehindWithKey(sorted, x, key, k);
    }
  }

  /** `x` is newer than everything: no element shares its key. */
  lemma InsertFrontWithKey<T>(sorted: seq<T>, x: T, key: T -> int, k: int)
    requires sorted != [] && Descending(sorted, key) && key(sorted[0]) < key(x)
    ensures WithKey(InsertDesc(sorted, x, key), key, k) ==
            WithKey(sorted, key, k) + (if key(x) == k then [x] else [])
  {
    var r := InsertDesc(sorted, x, key);
    assert r == [x] + sorted && r[1..] == sorted;
    if key(x) == k {
      WithKeyAbsent(sorted, key, k);
      assert WithKey(r, key, k) == [x] + WithKey(sorted, key, k);
    } else {
      assert WithKey(r, key, k) == WithKey(sorted, key, k);
    }
  }

  /** `x` goes past the first element. */
  lemma InsertBehindWithKey<T>(sorted: seq<T>, x: T, key: T -> int, k: int)
    requires sorted != [] && Descending(sorted, key) && key(sorted[0]) >= key(x)
    ensures WithKey(InsertDesc(sorted, x, key), key, k) ==
            WithKey(sorted, key, k) + (if key(x) == k then [x] else [])
    decreases |sorted|, 0
  {
    var r := InsertDesc(sorted, x, key);
    var rest := sorted[1..];
    var mine: seq<T> := if key(x) == k then [x] else [];
    var head: seq<T> := if key(sorted[0]) == k then [sorted[0]] else [];
    assert Descending(rest, key);
    InsertDescWithKey(rest, x, key, k);
    assert r == [sorted[0]] + InsertDesc(rest, x, key) && r[1..] == InsertDesc(rest, x, key);
    calc {
      WithKey(r, key, k);
      head + WithKey(InsertDesc(rest, x, key), key, k);
      head + (WithKey(rest, key, k) + mine);
      (head + WithKey(rest, key, k)) + mine;
    }
  }

  /** The sort is stable: elements of equal key keep their original order. */
  lemma {:induction false} SortDescStable<T>(s: seq<T>, key: T -> int, k: int)
    ensures WithKey(SortDesc(s, key), key, k) == WithKey(s, key, k)
  {
    if s != [] {
      var init, last := s[..|s| - 1], s[|s| - 1];
      var sorted := SortDesc(init, key);
      var mine: seq<T> := if key(last) == k then [last] else [];
      SortDescOrdered(init, key);
      assert WithKey([last], key, k) == mine by {
        assert [last][1..] == [];
      }
      calc {
        WithKey(SortDesc(s, key), key, k);
        WithKey(InsertDesc(sorted, last, key), key, k);
        { InsertDescWithKey(sorted, last, key, k); }
        WithKey(sorted, key, k) + mine;
        { SortDescStable(init, key, k); }
        WithKey(init, key, k) + WithKey([last], key, k);
        { WithKeyAppend(init, [last], key, k); }
        WithKey(init + [last], key, k);
        { assert s == init + [last]; }
        WithKey(s, key, k);
      }
    }
  }
}
