/** Stable sorting by an integer key. */
module Order {

  /** After everything whose key is not greater. */
  function Inserted<T>(s: seq<T>, x: T, key: T -> int): seq<T> {
    if s == [] || key(x) >= key(s[|s| - 1]) then s + [x]
    else Inserted(s[..|s| - 1], x, key) + [s[|s| - 1]]
  }

  function Sorted<T>(s: seq<T>, key: T -> int): seq<T> {
    if s == [] then [] else Inserted(Sorted(s[..|s| - 1], key), s[|s| - 1], key)
  }

  ghost predicate Ordered<T>(s: seq<T>, key: T -> int) {
    forall i, j :: 0 <= i < j < |s| ==> key(s[i]) <= key(s[j])
  }

  ghost predicate Increasing<T>(s: seq<T>, key: T -> int) {
    forall i, j :: 0 <= i < j < |s| ==> key(s[i]) < key(s[j])
  }

  /** The same elements, in any order and number. */
  ghost predicate SameElements<T(!new)>(s: seq<T>, t: seq<T>) {
    forall x :: x in s <==> x in t
  }

  lemma {:induction false} InsertedMembers<T>(s: seq<T>, x: T, key: T -> int, y: T)
    ensures y in Inserted(s, x, key) <==> y in s || y == x
    decreases |s|
  {
    if s != [] && key(x) < key(s[|s| - 1]) {
      InsertedMembers(s[..|s| - 1], x, key, y);
      assert s == s[..|s| - 1] + [s[|s| - 1]];
    }
  }

  lemma {:induction false} InsertedOrdered<T>(s: seq<T>, x: T, key: T -> int)
    requires Ordered(s, key)
    ensures Ordered(Inserted(s, x, key), key)
    decreases |s|
  {
    if s != [] && key(x) < key(s[|s| - 1]) {
      var front, last := s[..|s| - 1], s[|s| - 1];
      InsertedOrdered(front, x, key);
      var rest := Inserted(front, x, key);
      forall i | 0 <= i < |rest| ensures key(rest[i]) <= key(last) {
        InsertedMembers(front, x, key, rest[i]);
      }
    }
  }

  /** Sorting keeps the elements and orders them. */
  lemma {:induction false} SortedMembers<T>(s: seq<T>, key: T -> int, y: T)
    ensures y in Sorted(s, key) <==> y in s
    decreases |s|
  {
    if s != [] {
      SortedMembers(s[..|s| - 1], key, y);
      InsertedMembers(Sorted(s[..|s| - 1], key), s[|s| - 1], key, y);
      assert s == s[..|s| - 1] + [s[|s| - 1]];
    }
  }

  lemma {:induction false} SortedOrdered<T>(s: seq<T>, key: T -> int)
    ensures Ordered(Sorted(s, key), key)
    decreases |s|
  {
    if s != [] {
      SortedOrdered(s[..|s| - 1], key);
      InsertedOrdered(Sorted(s[..|s| - 1], key), s[|s| - 1], key);
    }
  }

  /** No two positions share a key. */
  ghost predicate DistinctKeys<T>(s: seq<T>, key: T -> int) {
    forall i, j :: 0 <= i < j < |s| ==> key(s[i]) != key(s[j])
  }

  lemma {:induction false} InsertedIncreasing<T>(s: seq<T>, x: T, key: T -> int)
    requires Increasing(s, key) && forall i :: 0 <= i < |s| ==> key(s[i]) != key(x)
    ensures Increasing(Inserted(s, x, key), key)
    decreases |s|
  {
    if s != [] && key(x) < key(s[|s| - 1]) {
      var front, last := s[..|s| - 1], s[|s| - 1];
      InsertedIncreasing(front, x, key);
      var rest := Inserted(front, x, key);
      forall i | 0 <= i < |rest| ensures key(rest[i]) < key(last) {
        InsertedMembers(front, x, key, rest[i]);
      }
    }
  }

  lemma {:induction false} SortedIncreasing<T>(s: seq<T>, key: T -> int)
    requires DistinctKeys(s, key)
    ensures Increasing(Sorted(s, key), key)
    decreases |s|
  {
    if s != [] {
      var front := s[..|s| - 1];
      SortedIncreasing(front, key);
      var t := Sorted(front, key);
      forall i | 0 <= i < |t| ensures key(t[i]) != key(s[|s| - 1]) {
        SortedMembers(front, key, t[i]);
      }
      InsertedIncreasing(t, s[|s| - 1], key);
    }
  }

  lemma {:induction false} InsertedLength<T>(s: seq<T>, x: T, key: T -> int)
    ensures |Inserted(s, x, key)| == |s| + 1
    decreases |s|
  {
    if s != [] && key(x) < key(s[|s| - 1]) { InsertedLength(s[..|s| - 1], x, key); }
  }

  lemma {:induction false} SortedLength<T>(s: seq<T>, key: T -> int)
    ensures |Sorted(s, key)| == |s|
    decreases |s|
  {
    if s != [] {
      SortedLength(s[..|s| - 1], key);
      InsertedLength(Sorted(s[..|s| - 1], key), s[|s| - 1], key);
    }
  }

  lemma {:induction false} SortedKeeps<T>(s: seq<T>, key: T -> int)
    requires Increasing(s, key)
    ensures Sorted(s, key) == s
    decreases |s|
  {
    if s != [] {
      var front, last := s[..|s| - 1], s[|s| - 1];
      SortedKeeps(front, key);
      assert front == [] || key(front[|front| - 1]) < key(last);
      hide Increasing;
      assert Inserted(front, last, key) == front + [last];
    }
  }

  lemma FrontElements<T(!new)>(a: seq<T>, b: seq<T>, key: T -> int)
    requires Increasing(a, key) && Increasing(b, key) && SameElements(a, b) && a != [] && b != []
    ensures a[|a| - 1] == b[|b| - 1] && SameElements(a[..|a| - 1], b[..|b| - 1])
  {
    var x, y := a[|a| - 1], b[|b| - 1];
    assert x in a && y in b;
    assert x in b && y in a;
    var i :| 0 <= i < |b| && b[i] == x;
    var j :| 0 <= j < |a| && a[j] == y;
    assert a == a[..|a| - 1] + [x] && b == b[..|b| - 1] + [y];
    assert x !in a[..|a| - 1] && y !in b[..|b| - 1];
    var front, back := a[..|a| - 1], b[..|b| - 1];
    forall z ensures z in front <==> z in back {
      assert z in a <==> z in b;
    }
  }

  /** A strictly increasing sequence is determined by its elements. */
  lemma {:induction false} IncreasingIsDetermined<T(!new)>(a: seq<T>, b: seq<T>, key: T -> int)
    requires Increasing(a, key) && Increasing(b, key) && SameElements(a, b)
    ensures a == b
    decreases |a|
  {
    assert a != [] ==> a[0] in b;
    assert b != [] ==> b[0] in a;
    if a != [] && b != [] {
      FrontElements(a, b, key);
      IncreasingIsDetermined(a[..|a| - 1], b[..|b| - 1], key);
      assert a == a[..|a| - 1] + [a[|a| - 1]] && b == b[..|b| - 1] + [b[|b| - 1]];
    }
  }
}
