/** Lists as the other modules use them: distinct elements, a seen set, the last entries, filters. */
module Lists {

  predicate Distinct<T(==)>(s: seq<T>) {
    forall i, j :: 0 <= i < j < |s| ==> s[i] != s[j]
  }

  function Elements<T>(s: seq<T>): set<T> {
    set x | x in s
  }

  lemma {:induction false} OneMore<T>(s: seq<T>, i: nat)
    requires i < |s|
    ensures s[..i + 1] == s[..i] + [s[i]]
  {}

  lemma {:induction false} ElementsNext<T>(s: seq<T>, x: T)
    requires Distinct(s) && |Elements(s)| == |s|
    ensures Elements(s + [x]) == Elements(s) + {x}
    ensures Distinct(s + [x]) <==> x !in Elements(s)
    ensures x !in Elements(s) ==> |Elements(s + [x])| == |s| + 1
  {
    var more := s + [x];
    assert more[|s|] == x && forall k :: 0 <= k < |s| ==> more[k] == s[k];
    assert Elements(more) == Elements(s) + {x};
  }

  /** A list has as many elements as its set exactly when they are distinct. */
  lemma {:induction false} DistinctCount<T>(s: seq<T>)
    ensures |Elements(s)| <= |s| && (|Elements(s)| == |s| <==> Distinct(s))
  {
    if s != [] {
      var rest, x := s[..|s| - 1], s[|s| - 1];
      assert s == rest + [x];
      DistinctCount(rest);
      assert Elements(s) == Elements(rest) + {x};
      if Distinct(rest) {
        ElementsNext(rest, x);
      } else {
        var i, j :| 0 <= i < j < |rest| && rest[i] == rest[j];
        assert s[i] == s[j];
      }
    }
  }

  // ---------------------------------------------------------------- a loop with a seen set

  /** The first i elements are distinct, and these are they. */
  ghost predicate SeenUpTo<T>(s: seq<T>, i: nat, seen: set<T>) {
    i <= |s| && seen == Elements(s[..i]) && |seen| == i && Distinct(s[..i])
  }

  lemma {:induction false} SeenStep<T>(s: seq<T>, i: nat, seen: set<T>)
    requires SeenUpTo(s, i, seen) && i < |s|
    ensures s[i] in seen ==> !Distinct(s)
    ensures s[i] !in seen ==> SeenUpTo(s, i + 1, seen + {s[i]})
  {
    OneMore(s, i);
    ElementsNext(s[..i], s[i]);
    if s[i] in seen {
      var k :| 0 <= k < i && s[..i][k] == s[i];
      assert s[k] == s[i];
    }
  }

  lemma {:induction false} SeenAll<T>(s: seq<T>, seen: set<T>)
    requires SeenUpTo(s, |s|, seen)
    ensures Distinct(s) && seen == Elements(s)
  {
    assert s[..|s|] == s;
  }

  /** The loop that validators share: every entry must fit, and none may be named twice. */
  method EachOnce<T(==)>(names: seq<T>, fits: int -> bool) returns (ok: bool)
    ensures ok <==> Distinct(names) && forall i :: 0 <= i < |names| ==> fits(i)
  {
    var seen: set<T> := {};
    for i := 0 to |names|
      invariant SeenUpTo(names, i, seen)
      invariant forall k :: 0 <= k < i ==> fits(k)
    {
      SeenStep(names, i, seen);
      if !fits(i) || names[i] in seen {
        return false;
      }
      seen := seen + {names[i]};
    }
    SeenAll(names, seen);
    return true;
  }

  // ---------------------------------------------------------------- parts of a list

  /** slice(-n): the last n entries. */
  function Last<T>(n: nat, s: seq<T>): seq<T> {
    if |s| <= n then s else s[|s| - n..]
  }

  function Filter<T>(s: seq<T>, p: T -> bool): seq<T> {
    if s == [] then []
    else Filter(s[..|s| - 1], p) + if p(s[|s| - 1]) then [s[|s| - 1]] else []
  }

  lemma {:induction false} FilterNext<T>(s: seq<T>, x: T, p: T -> bool)
    ensures Filter(s + [x], p) == if p(x) then Filter(s, p) + [x] else Filter(s, p)
  {
    assert (s + [x])[..|s|] == s;
  }

  method FilterList<T>(s: seq<T>, p: T -> bool) returns (kept: seq<T>)
    ensures kept == Filter(s, p)
  {
    kept := [];
    for i := 0 to |s|
      invariant kept == Filter(s[..i], p)
    {
      OneMore(s, i);
      FilterNext(s[..i], s[i], p);
      if p(s[i]) {
        kept := kept + [s[i]];
      }
    }
    assert s[..|s|] == s;
  }

  // ---------------------------------------------------------------- records by key

  function KeyList<K, V>(values: seq<V>, key: V -> K): seq<K> {
    seq(|values|, i requires 0 <= i < |values| => key(values[i]))
  }

  /** What a store holds after each record is put under its key, in order. */
  function ByKey<K(==), V>(values: seq<V>, key: V -> K): map<K, V> {
    if values == [] then map[]
    else ByKey(values[..|values| - 1], key)[key(values[|values| - 1]) := values[|values| - 1]]
  }

  lemma {:induction false} ByKeyNext<K, V>(values: seq<V>, x: V, key: V -> K)
    ensures ByKey(values + [x], key) == ByKey(values, key)[key(x) := x]
    ensures KeyList(values + [x], key) == KeyList(values, key) + [key(x)]
  {
    assert (values + [x])[..|values|] == values;
  }

  /** With distinct keys the store holds each record under its key, and nothing else. */
  lemma {:induction false} ByKeyIs<K, V>(values: seq<V>, key: V -> K)
    requires Distinct(KeyList(values, key))
    ensures forall k :: k in ByKey(values, key) <==> k in KeyList(values, key)
    ensures forall i :: 0 <= i < |values| ==>
      key(values[i]) in ByKey(values, key) && ByKey(values, key)[key(values[i])] == values[i]
  {
    if values != [] {
      var rest, x := values[..|values| - 1], values[|values| - 1];
      assert values == rest + [x];
      ByKeyNext(rest, x, key);
      var keys := KeyList(values, key);
      assert forall i :: 0 <= i < |rest| ==> keys[i] == KeyList(rest, key)[i] && keys[i] != keys[|rest|];
      ByKeyIs(rest, key);
      forall i | 0 <= i < |values|
        ensures key(values[i]) in ByKey(values, key) && ByKey(values, key)[key(values[i])] == values[i]
      {
        if i < |rest| {
          assert values[i] == rest[i] && key(rest[i]) == keys[i];
        }
      }
    }
  }

  // ---------------------------------------------------------------- members of sets

  lemma {:induction false} Member<T>(s: set<T>) returns (m: T)
    requires s != {}
    ensures m in s
  {
    m :| m in s;
  }
}
