/** A stable insertion sort by an integer key, and what it guarantees:
    sorted, a permutation, and stable (`SortByIsStable`). */
module Sorting {
  /** Puts `x` after every element whose key is not larger (so elements of
      equal key keep their relative order). */
  function Insert<T>(sorted: seq<T>, x: T, key: T -> int): seq<T>
  {
    if sorted == [] then [x]
    else if key(x) < key(sorted[0]) then [x] + sorted
    else [sorted[0]] + Insert(sorted[1..], x, key)
  }

  /** Insertion sort by `key`, inserting the elements in list order. */
  function SortBy<T>(s: seq<T>, key: T -> int): seq<T>
  {
    if s == [] then [] else Insert(SortBy(s[..|s| - 1], key), s[|s| - 1], key)
  }

  predicate SortedBy<T>(s: seq<T>, key: T -> int)
  {
    forall i, j :: 0 <= i < j < |s| ==> key(s[i]) <= key(s[j])
  }

  /** Insertion adds exactly `x`. */
  lemma {:induction false} InsertAddsOne<T>(s: seq<T>, x: T, key: T -> int)
    ensures multiset(Insert(s, x, key)) == multiset(s) + multiset{x}
  {
    if s != [] && key(x) >= key(s[0]) {
      InsertAddsOne(s[1..], x, key);
      assert s == [s[0]] + s[1..];
    }
  }

  /** Inserting into a sorted list keeps it sorted. */
  lemma {:induction false} InsertKeepsSorted<T>(s: seq<T>, x: T, key: T -> int)
    requires SortedBy(s, key)
    ensures SortedBy(Insert(s, x, key), key)
  {
    if s != [] && key(x) >= key(s[0]) {
      InsertKeepsSorted(s[1..], x, key);
      InsertAddsOne(s[1..], x, key);
      var rest := Insert(s[1..], x, key);
      forall j | 0 <= j < |rest|
        ensures key(s[0]) <= key(rest[j])
      {
        assert rest[j] in multiset(s[1..]) + multiset{x};
        if rest[j] != x {
          var m :| 0 <= m < |s[1..]| && s[1..][m] == rest[j];
          assert s[m + 1] == rest[j];
        }
      }
      assert forall j :: 0 < j < |[s[0]] + rest| ==> ([s[0]] + rest)[j] == rest[j - 1];
    }
  }

  /** The sort yields a list sorted by `key` that holds the same elements,
      each as many times as before. */
  lemma {:induction false} SortBySorts<T>(s: seq<T>, key: T -> int)
    ensures SortedBy(SortBy(s, key), key)
    ensures multiset(SortBy(s, key)) == multiset(s)
  {
    if s != [] {
      var init := s[..|s| - 1];
      SortBySorts(init, key);
      InsertKeepsSorted(SortBy(init, key), s[|s| - 1], key);
      InsertAddsOne(SortBy(init, key), s[|s| - 1], key);
      assert s == init + [s[|s| - 1]];
    }
  }

  /** The elements of `s` whose key is `v`, in order. */
  function WithKey<T>(s: seq<T>, key: T -> int, v: int): seq<T>
  {
    if s == [] then [] else (if key(s[0]) == v then [s[0]] else []) + WithKey(s[1..], key, v)
  }

  /** Picking the elements of one key distributes over concatenation. */
  lemma {:induction false} WithKeyAppend<T>(a: seq<T>, b: seq<T>, key: T -> int, v: int)
    ensures WithKey(a + b, key, v) == WithKey(a, key, v) + WithKey(b, key, v)
  {
    if a == [] {
      assert a + b == b;
    } else {
      assert (a + b)[1..] == a[1..] + b;
      WithKeyAppend(a[1..], b, key, v);
    }
  }

  /** A sorted list whose first key is above `v` has no element of key `v`. */
  lemma {:induction false} WithKeyAbove<T>(s: seq<T>, key: T -> int, v: int)
    requires SortedBy(s, key) && (s != [] ==> v < key(s[0]))
    ensures WithKey(s, key, v) == []
  {
    if s != [] {
      assert SortedBy(s[1..], key) by {
        assert forall i :: 0 <= i < |s[1..]| ==> s[1..][i] == s[i + 1];
      }
      if |s| > 1 {
        assert key(s[0]) <= key(s[1]);
      }
      WithKeyAbove(s[1..], key, v);
    }
  }

  /** Insertion puts `x` after every element of a sorted list that has its key. */
  lemma {:induction false} InsertKeepsOrder<T>(s: seq<T>, x: T, key: T -> int, v: int)
    requires SortedBy(s, key)
    ensures WithKey(Insert(s, x, key), key, v) == WithKey(s, key, v) + WithKey([x], key, v)
  {
    assert WithKey([x], key, v) == (if key(x) == v then [x] else []) + WithKey([x][1..], key, v);
    if s == [] {
    } else if key(x) < key(s[0]) {
      assert ([x] + s)[1..] == s;
      if key(x) == v {
        WithKeyAbove(s, key, v);
      }
    } else {
      assert SortedBy(s[1..], key) by {
        assert forall i :: 0 <= i < |s[1..]| ==> s[1..][i] == s[i + 1];
      }
      InsertKeepsOrder(s[1..], x, key, v);
      assert ([s[0]] + Insert(s[1..], x, key))[1..] == Insert(s[1..], x, key);
    }
  }

  /** The sort is stable: for every key, the elements with that key come out
      in the order they went in. */
  lemma {:induction false} SortByIsStable<T>(s: seq<T>, key: T -> int, v: int)
    ensures WithKey(SortBy(s, key), key, v) == WithKey(s, key, v)
  {
    if s != [] {
      var init, last := s[..|s| - 1], s[|s| - 1];
      SortByIsStable(init, key, v);
      SortBySorts(init, key);
      InsertKeepsOrder(SortBy(init, key), last, key, v);
      assert s == init + [last];
      WithKeyAppend(init, [last], key, v);
    }
  }

  /** The head of a sorted list has the least key. */
  lemma HeadIsLeast<T>(s: seq<T>, x: T, key: T -> int)
    requires SortedBy(s, key) && x in multiset(s)
    ensures s != [] && key(s[0]) <= key(x)
  {
    var i :| 0 <= i < |s| && s[i] == x;
  }

  /** The tail of a list holds its elements but the head, and stays sorted. */
  lemma SplitHead<T>(s: seq<T>, key: T -> int)
    requires s != [] && SortedBy(s, key)
    ensures multiset(s[1..]) == multiset(s) - multiset{s[0]}
    ensures SortedBy(s[1..], key)
  {
    assert s == [s[0]] + s[1..];
    assert forall i :: 0 <= i < |s[1..]| ==> s[1..][i] == s[i + 1];
  }

  /** Two sorted non-empty lists of the same elements start alike when no
      two elements share a key. */
  lemma HeadsAgree<T>(s: seq<T>, t: seq<T>, key: T -> int)
    requires forall x, y :: key(x) == key(y) ==> x == y
    requires SortedBy(s, key) && SortedBy(t, key) && multiset(s) == multiset(t) && s != []
    ensures t != [] && s[0] == t[0]
  {
    assert s[0] in multiset(s);
    HeadIsLeast(t, s[0], key);
    assert t[0] in multiset(t);
    HeadIsLeast(s, t[0], key);
  }

  /** When no two elements share a key, two sorted lists holding the same
      elements are the same list. */
  lemma {:induction false} SortedUnique<T>(s: seq<T>, t: seq<T>, key: T -> int)
    requires forall x, y :: key(x) == key(y) ==> x == y
    requires SortedBy(s, key) && SortedBy(t, key) && multiset(s) == multiset(t)
    ensures s == t
  {
    if s == [] {
      assert |t| == |multiset(t)| == 0;
    } else {
      HeadsAgree(s, t, key);
      SplitHead(s, key);
      SplitHead(t, key);
      assert multiset(s[1..]) == multiset(t[1..]);
      assert SortedBy(s[1..], key) && SortedBy(t[1..], key);
      SortedUnique(s[1..], t[1..], key);
      assert s[1..] == t[1..];
      assert |s| == |t|;
      assert forall i :: 0 <= i < |s| ==> s[i] == t[i];
    }
  }

}
