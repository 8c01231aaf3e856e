/** The stable sort that Array.prototype.sort performs, by a numeric key. */
module Sorting {

  /** Puts x behind the last element whose key does not exceed its own. */
  function Insert<T>(s: seq<T>, x: T, key: T -> int): seq<T> {
    if s == [] || key(s[|s| - 1]) <= key(x) then s + [x]
    else Insert(s[..|s| - 1], x, key) + [s[|s| - 1]]
  }

  function SortBy<T>(s: seq<T>, key: T -> int): seq<T> {
    if s == [] then [] else Insert(SortBy(s[..|s| - 1], key), s[|s| - 1], key)
  }

  ghost predicate Ascending<T>(s: seq<T>, key: T -> int) {
    forall i, j :: 0 <= i < j < |s| ==> key(s[i]) <= key(s[j])
  }

  ghost predicate Strictly<T>(s: seq<T>, key: T -> int) {
    forall i, j :: 0 <= i < j < |s| ==> key(s[i]) < key(s[j])
  }

  lemma SplitLast<T>(s: seq<T>)
    requires s != []
    ensures s == s[..|s| - 1] + [s[|s| - 1]]
    ensures multiset(s) == multiset(s[..|s| - 1]) + multiset{s[|s| - 1]}
  {}

  lemma {:induction false} InsertElements<T>(s: seq<T>, x: T, key: T -> int)
    ensures multiset(Insert(s, x, key)) == multiset(s) + multiset{x}
    ensures |Insert(s, x, key)| == |s| + 1
  {
    if s != [] && key(s[|s| - 1]) > key(x) {
      InsertElements(s[..|s| - 1], x, key);
      SplitLast(s);
    }
  }

  lemma {:induction false} SortElements<T>(s: seq<T>, key: T -> int)
    ensures multiset(SortBy(s, key)) == multiset(s) && |SortBy(s, key)| == |s|
  {
    if s != [] {
      SortElements(s[..|s| - 1], key);
      InsertElements(SortBy(s[..|s| - 1], key), s[|s| - 1], key);
      SplitLast(s);
    }
  }

  lemma {:induction false} InsertAscending<T>(s: seq<T>, x: T, key: T -> int)
    requires Ascending(s, key)
    ensures Ascending(Insert(s, x, key), key)
  {
    if s != [] && key(s[|s| - 1]) > key(x) {
      var rest, last := s[..|s| - 1], s[|s| - 1];
      InsertAscending(rest, x, key);
      InsertElements(rest, x, key);
      var r := Insert(rest, x, key);
      forall i | 0 <= i < |r| ensures key(r[i]) <= key(last) {
        assert r[i] in multiset(r);
        assert r[i] == x || r[i] in rest;
      }
    }
  }

  lemma {:induction false} SortAscending<T>(s: seq<T>, key: T -> int)
    ensures Ascending(SortBy(s, key), key)
  {
    if s != [] {
      SortAscending(s[..|s| - 1], key);
      InsertAscending(SortBy(s[..|s| - 1], key), s[|s| - 1], key);
    }
  }

  lemma SameLength<T>(a: seq<T>, b: seq<T>)
    requires multiset(a) == multiset(b)
    ensures |a| == |b|
  {
    assert |multiset(a)| == |a| && |multiset(b)| == |b|;
  }

  lemma LargestOf<T>(a: seq<T>, b: seq<T>, key: T -> int)
    requires a != [] && Ascending(b, key) && multiset(a) == multiset(b)
    ensures |a| == |b| && key(a[|a| - 1]) <= key(b[|b| - 1])
  {
    SameLength(a, b);
    assert a[|a| - 1] in multiset(a);
    assert a[|a| - 1] in multiset(b);
    var j :| 0 <= j < |b| && b[j] == a[|a| - 1];
  }

  lemma SameLast<T>(a: seq<T>, b: seq<T>, key: T -> int)
    requires a != [] && Strictly(a, key) && Ascending(b, key) && multiset(a) == multiset(b)
    ensures |a| == |b| && a[|a| - 1] == b[|b| - 1]
  {
    LargestOf(a, b, key);
    LargestOf(b, a, key);
    assert b[|b| - 1] in multiset(b);
    assert b[|b| - 1] in multiset(a);
    var i :| 0 <= i < |a| && a[i] == b[|b| - 1];
  }

  /** There is one way to put elements with distinct keys in order. */
  lemma {:induction false} AscendingUnique<T>(a: seq<T>, b: seq<T>, key: T -> int)
    requires Strictly(a, key) && Ascending(b, key) && multiset(a) == multiset(b)
    ensures a == b
    decreases |a|
  {
    SameLength(a, b);
    if a != [] {
      SameLast(a, b, key);
      SplitLast(a);
      SplitLast(b);
      var last := multiset{a[|a| - 1]};
      assert multiset(a[..|a| - 1]) == multiset(a) - last;
      assert multiset(b[..|b| - 1]) == multiset(b) - last;
      AscendingUnique(a[..|a| - 1], b[..|b| - 1], key);
    }
  }

  /** Sorting any arrangement of a list in order gives back the list. */
  lemma SortUnique<T>(a: seq<T>, b: seq<T>, key: T -> int)
    requires Strictly(a, key) && multiset(a) == multiset(b)
    ensures SortBy(b, key) == a
  {
    SortElements(b, key);
    SortAscending(b, key);
    AscendingUnique(a, SortBy(b, key), key);
  }
}
