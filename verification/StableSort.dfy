/**
 The contract of Python's `sorted(items, key=...)` with an integer key: the result is
 ordered by the key and items with equal keys keep their order.
 */
module StableSort {

  ghost predicate Sorted<T(!new)>(s: seq<T>, key: T -> int)
  {
    forall i, j :: 0 <= i < j < |s| ==> key(s[i]) <= key(s[j])
  }

  ghost predicate StrictlySorted<T(!new)>(s: seq<T>, key: T -> int)
  {
    forall i, j :: 0 <= i < j < |s| ==> key(s[i]) < key(s[j])
  }

  function Insert<T>(s: seq<T>, x: T, key: T -> int): seq<T> {
    if s == [] || key(s[|s| - 1]) <= key(x) then s + [x]
    else Insert(s[..|s| - 1], x, key) + [s[|s| - 1]]
  }

  lemma {:induction false} InsertAdds<T>(s: seq<T>, x: T, key: T -> int)
    ensures multiset(Insert(s, x, key)) == multiset(s) + multiset{x}
  {
    if s != [] && key(s[|s| - 1]) > key(x) {
      InsertAdds(s[..|s| - 1], x, key);
      assert s == s[..|s| - 1] + [s[|s| - 1]];
    }
  }

  function Sort<T>(s: seq<T>, key: T -> int): (r: seq<T>)
    ensures multiset(r) == multiset(s)
  {
    if s == [] then []
    else
      InsertAdds(Sort(s[..|s| - 1], key), s[|s| - 1], key);
      assert s == s[..|s| - 1] + [s[|s| - 1]];
      Insert(Sort(s[..|s| - 1], key), s[|s| - 1], key)
  }

  /** The elements that satisfy `p`, in order. */
  function Filter<T>(s: seq<T>, p: T -> bool): (r: seq<T>)
    ensures forall x :: x in r ==> x in s && p(x)
    ensures forall x :: x in s && p(x) ==> x in r
  {
    if s == [] then []
    else
      assert s == s[..|s| - 1] + [s[|s| - 1]];
      Filter(s[..|s| - 1], p) + (if p(s[|s| - 1]) then [s[|s| - 1]] else [])
  }

  lemma {:induction false} InsertSorted<T(!new)>(s: seq<T>, x: T, key: T -> int)
    requires Sorted(s, key)
    ensures Sorted(Insert(s, x, key), key)
  {
    if s != [] && key(s[|s| - 1]) > key(x) {
      var front := s[..|s| - 1];
      InsertSorted(front, x, key);
      var r := Insert(front, x, key);
      InsertAdds(front, x, key);
      forall i | 0 <= i < |r| ensures key(r[i]) <= key(s[|s| - 1]) {
        assert r[i] in multiset(r);
        assert r[i] in front || r[i] == x;
      }
    }
  }

  lemma {:induction false} SortSorted<T(!new)>(s: seq<T>, key: T -> int)
    ensures Sorted(Sort(s, key), key)
  {
    if s != [] {
      SortSorted(s[..|s| - 1], key);
      InsertSorted(Sort(s[..|s| - 1], key), s[|s| - 1], key);
    }
  }

  /** A list already in order is returned unchanged. */
  lemma {:induction false} SortIdentity<T(!new)>(s: seq<T>, key: T -> int)
    requires Sorted(s, key)
    ensures Sort(s, key) == s
  {
    if s != [] {
      SortIdentity(s[..|s| - 1], key);
    }
  }

  lemma {:induction false} HeadIsMember<T>(s: seq<T>)
    ensures s == [] || s[0] in s
  {
  }

  /** A strictly ordered list is determined by its elements. */
  lemma {:induction false} StrictlySortedUnique<T(!new)>(a: seq<T>, b: seq<T>, key: T -> int)
    requires StrictlySorted(a, key) && StrictlySorted(b, key)
    requires forall x :: x in a <==> x in b
    ensures a == b
  {
    if a == [] {
      HeadIsMember(b);
    } else {
      assert a[0] in b;
      var p, q := a[|a| - 1], b[|b| - 1];
      assert p in b && q in a;
      assert key(p) == key(q) && p == q;
      var front, back := a[..|a| - 1], b[..|b| - 1];
      forall x ensures x in front <==> x in back {
        SameFront(a, b, x, key);
        SameFront(b, a, x, key);
      }
      StrictlySortedUnique(front, back, key);
    }
  }

  lemma {:induction false} SameFront<T(!new)>(a: seq<T>, b: seq<T>, x: T, key: T -> int)
    requires a != [] && b != [] && StrictlySorted(a, key) && StrictlySorted(b, key)
    requires a[|a| - 1] == b[|b| - 1] && forall y :: y in a <==> y in b
    ensures x in a[..|a| - 1] ==> x in b[..|b| - 1]
  {
    if x in a[..|a| - 1] {
      var i :| 0 <= i < |a| - 1 && a[i] == x;
      assert x in b;
      var j :| 0 <= j < |b| && b[j] == x;
      assert key(x) < key(a[|a| - 1]);
    }
  }

  /** Items with different keys keep them different when sorted. */
  lemma {:induction false} DistinctStrictlySorted<T(!new)>(values: seq<T>, result: seq<T>, key: T -> int)
    requires multiset(values) == multiset(result) && Sorted(result, key)
    requires forall i, j :: 0 <= i < j < |values| ==> key(values[i]) != key(values[j])
    ensures StrictlySorted(result, key)
  {
    forall i, j | 0 <= i < j < |result| ensures key(result[i]) < key(result[j]) {
      assert key(result[i]) <= key(result[j]);
      if key(result[i]) == key(result[j]) {
        SameKeySameItem(values, result[i], result[j], key);
        TwoPlaces(result, i, j);
        OncePerKey(values, result[i], key);
      }
    }
  }

  lemma {:induction false} SameKeySameItem<T>(values: seq<T>, a: T, b: T, key: T -> int)
    requires a in multiset(values) && b in multiset(values) && key(a) == key(b)
    requires forall i, j :: 0 <= i < j < |values| ==> key(values[i]) != key(values[j])
    ensures a == b
  {
    var i :| 0 <= i < |values| && values[i] == a;
    var j :| 0 <= j < |values| && values[j] == b;
  }

  lemma {:induction false} TwoPlaces<T>(s: seq<T>, i: int, j: int)
    requires 0 <= i < j < |s| && s[i] == s[j]
    ensures multiset(s)[s[i]] >= 2
  {
    assert s == s[..i] + [s[i]] + s[i + 1..j] + [s[j]] + s[j + 1..];
  }

  lemma {:induction false} OncePerKey<T>(values: seq<T>, x: T, key: T -> int)
    requires forall i, j :: 0 <= i < j < |values| ==> key(values[i]) != key(values[j])
    ensures multiset(values)[x] <= 1
  {
    if values != [] {
      var front, last := values[..|values| - 1], values[|values| - 1];
      assert values == front + [last];
      OncePerKey(front, x, key);
      if last == x {
        assert x !in front;
      }
    }
  }
}
