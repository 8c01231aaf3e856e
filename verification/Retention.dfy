/** Daily retention of backups: fabric-backup.js keeps the newest backup of each of the newest days,
    and applies the rule to what it kept before. */
module Retention {
  import opened Options
  import opened Lists
  import opened Sorting

  const DAY := 86400000
  const RETAIN := 30

  /** The instant of creation is absent when the timestamp cannot be parsed. */
  datatype Backup = Backup(id: string, createdAt: string, instant: Option<int>)

  // ---------------------------------------------------------------- what is kept

  /** Math.floor(instant / DAY): Euclidean division rounds down for a positive divisor. */
  function DayOf(b: Backup): int
    requires b.instant.Some?
  {
    b.instant.value / DAY
  }

  predicate Eligible(b: Backup, now: int) {
    b.instant.Some? && b.instant.value <= now
  }

  /** The days after this one that have a backup. */
  ghost function NewerDays(s: set<Backup>, now: int, day: int): set<int> {
    set b | b in s && Eligible(b, now) && DayOf(b) > day :: DayOf(b)
  }

  predicate Newest(s: set<Backup>, now: int, b: Backup)
    requires Eligible(b, now)
  {
    forall c :: c in s && Eligible(c, now) && DayOf(c) == DayOf(b) ==> c.instant.value <= b.instant.value
  }

  /** The newest backup of its day, and that day among the newest that have one. */
  ghost predicate Kept(s: set<Backup>, now: int, b: Backup) {
    && b in s && Eligible(b, now) && Newest(s, now, b) && |NewerDays(s, now, DayOf(b))| < RETAIN
  }

  predicate Descending(r: seq<Backup>) {
    && (forall i :: 0 <= i < |r| ==> r[i].instant.Some?)
    && forall i, j :: 0 <= i < j < |r| ==> r[i].instant.value > r[j].instant.value
  }

  /** The retention of a set: what is kept of it, newest first. */
  ghost predicate IsRetention(r: seq<Backup>, s: set<Backup>, now: int) {
    Descending(r) && forall b :: b in r <==> Kept(s, now, b)
  }

  predicate DistinctInstants(s: set<Backup>) {
    forall b, c :: b in s && c in s && b.instant.Some? && b.instant == c.instant ==> b == c
  }

  /** Among these backups, timestamps compare as text in the order of their instants. */
  ghost predicate OrderedAsInstants(rank: Backup -> int, s: set<Backup>) {
    forall b, c :: b in s && c in s && b.instant.Some? && c.instant.Some? ==>
      (rank(b) <= rank(c) <==> b.instant.value <= c.instant.value)
  }

  // ---------------------------------------------------------------- a retention is unique

  lemma {:induction false} SomeElement(s: seq<Backup>)
    ensures s != [] ==> Elements(s) != {}
  {
    if s != [] { assert s[0] in Elements(s); }
  }

  lemma {:induction false} DescendingUnique(a: seq<Backup>, b: seq<Backup>)
    requires Descending(a) && Descending(b) && Elements(a) == Elements(b)
    ensures a == b
  {
    SomeElement(b);
    if a != [] {
      assert a[0] in Elements(a);
      assert b[0] in Elements(b);
      assert a[0] == b[0];
      forall x ensures x in Elements(a[1..]) <==> x in Elements(a) && x != a[0] { InTail(a, x); }
      forall x ensures x in Elements(b[1..]) <==> x in Elements(b) && x != b[0] { InTail(b, x); }
      DescendingUnique(a[1..], b[1..]);
    }
  }

  lemma {:induction false} InTail(a: seq<Backup>, x: Backup)
    requires Descending(a) && a != []
    ensures x in a[1..] <==> x in a && x != a[0]
  {
    assert a == [a[0]] + a[1..];
    if x in a[1..] {
      var i :| 0 <= i < |a[1..]| && a[1..][i] == x;
      assert a[i + 1] == x;
    }
  }

  lemma {:induction false} RetentionUnique(a: seq<Backup>, b: seq<Backup>, s: set<Backup>, t: set<Backup>, now: int,
          later: int)
    requires IsRetention(a, s, now) && IsRetention(b, t, later) && forall x :: Kept(s, now, x) <==> Kept(t, later, x)
    ensures a == b
  {
    forall x ensures x in Elements(a) <==> x in Elements(b) {
      assert x in a <==> Kept(s, now, x);
      assert x in b <==> Kept(t, later, x);
    }
    DescendingUnique(a, b);
  }

  // ---------------------------------------------------------------- the newest days

  lemma {:induction false} MinOf(s: set<int>) returns (m: int)
    requires s != {}
    ensures m in s && forall x :: x in s ==> m <= x
    decreases |s|
  {
    m := Member(s);
    var rest := s - {m};
    assert forall x :: x in s ==> x == m || x in rest;
    if rest != {} {
      var n := MinOf(rest);
      m := if n < m then n else m;
    }
  }

  lemma {:induction false} Largest(s: set<Backup>, now: int, day: int, b: Backup) returns (top: Backup)
    requires b in s && Eligible(b, now) && DayOf(b) == day
    ensures top in s && Eligible(top, now) && DayOf(top) == day && Newest(s, now, top)
    decreases |s|
  {
    var rest := s - {b};
    if c :| c in rest && Eligible(c, now) && DayOf(c) == day {
      top := Largest(rest, now, day, c);
      if top.instant.value < b.instant.value { top := b; }
    } else {
      top := b;
    }
  }

  lemma {:induction false} Smaller(a: set<int>, b: set<int>, d: int)
    requires a <= b && d in b && d !in a
    ensures |a| < |b|
  {
    assert b == a + (b - a) && d in b - a;
  }

  lemma {:induction false} NotLarger(a: set<int>, b: set<int>)
    requires a <= b
    ensures |a| <= |b|
  {
    assert b == a + (b - a);
  }

  lemma {:induction false} LaterDays(s: set<Backup>, now: int, day: int, d: int)
    requires d in NewerDays(s, now, day)
    ensures NewerDays(s, now, d) <= NewerDays(s, now, day) && d !in NewerDays(s, now, d) && d > day
    ensures |NewerDays(s, now, d)| < |NewerDays(s, now, day)|
  {
    Smaller(NewerDays(s, now, d), NewerDays(s, now, day), d);
  }

  /** What t keeps of s: at least all that is kept of it. */
  ghost predicate Covers(t: set<Backup>, s: set<Backup>, now: int) {
    t <= s && forall b :: Kept(s, now, b) ==> b in t
  }

  lemma {:induction false} DayKept(s: set<Backup>, t: set<Backup>, now: int, day: int, d: int)
    requires Covers(t, s, now)
    requires d in NewerDays(s, now, day) && |NewerDays(s, now, d)| < RETAIN
    ensures d in NewerDays(t, now, day)
  {
    var b :| b in s && Eligible(b, now) && DayOf(b) == d;
    var top := Largest(s, now, d, b);
    assert Kept(s, now, top);
  }

  /** The kept backups have every newer day, if there are fewer than the limit. */
  lemma {:induction false} FewDays(s: set<Backup>, t: set<Backup>, now: int, day: int)
    requires Covers(t, s, now) && |NewerDays(s, now, day)| < RETAIN
    ensures NewerDays(t, now, day) == NewerDays(s, now, day)
  {
    forall d | d in NewerDays(s, now, day) ensures d in NewerDays(t, now, day) {
      LaterDays(s, now, day, d);
      DayKept(s, t, now, day, d);
    }
  }

  /** And at least the limit of them, if there are as many. */
  lemma {:induction false} ManyDays(s: set<Backup>, t: set<Backup>, now: int, day: int)
    requires Covers(t, s, now) && |NewerDays(s, now, day)| >= RETAIN
    ensures |NewerDays(t, now, day)| >= RETAIN
    decreases |NewerDays(s, now, day)|
  {
    var newer := NewerDays(s, now, day);
    var d := MinOf(newer);
    LaterDays(s, now, day, d);
    if |NewerDays(s, now, d)| >= RETAIN {
      ManyDays(s, t, now, d);
      NotLarger(NewerDays(t, now, d), NewerDays(t, now, day));
    } else {
      FewDays(s, t, now, d);
      DayKept(s, t, now, day, d);
      assert newer == NewerDays(s, now, d) + {d};
      NotLarger(newer, NewerDays(t, now, day));
    }
  }

  lemma {:induction false} Added(s: set<Backup>, x: Backup, now: int, day: int)
    ensures NewerDays(s + {x}, now, day) ==
      if Eligible(x, now) && DayOf(x) > day then NewerDays(s, now, day) + {DayOf(x)} else NewerDays(s, now, day)
  {}

  /** Adding a backup to what was kept gives as many newer days, below the limit, as adding it to
      everything. */
  lemma {:induction false} SameCount(s: set<Backup>, t: set<Backup>, x: Backup, now: int, day: int)
    requires Covers(t, s, now)
    ensures |NewerDays(s + {x}, now, day)| < RETAIN <==> |NewerDays(t + {x}, now, day)| < RETAIN
  {
    Added(s, x, now, day);
    Added(t, x, now, day);
    if |NewerDays(s, now, day)| < RETAIN {
      FewDays(s, t, now, day);
    } else {
      ManyDays(s, t, now, day);
      NotLarger(NewerDays(s, now, day), NewerDays(s + {x}, now, day));
      NotLarger(NewerDays(t, now, day), NewerDays(t + {x}, now, day));
    }
  }

  /** The newest of what was kept and the new one is the newest of all, when its day counts. */
  lemma {:induction false} SameNewest(s: set<Backup>, t: set<Backup>, x: Backup, now: int, b: Backup)
    requires Covers(t, s, now) && Eligible(b, now) && b in t + {x}
    requires |NewerDays(t + {x}, now, DayOf(b))| < RETAIN
    ensures Newest(t + {x}, now, b) ==> Newest(s + {x}, now, b)
  {
    SameCount(s, t, x, now, DayOf(b));
    forall c | c in s + {x} && Eligible(c, now) && DayOf(c) == DayOf(b) && Newest(t + {x}, now, b)
      ensures c.instant.value <= b.instant.value
    {
      if c != x {
        var top := Largest(s, now, DayOf(b), c);
        Added(s, x, now, DayOf(b));
        NotLarger(NewerDays(s, now, DayOf(b)), NewerDays(s + {x}, now, DayOf(b)));
        assert Kept(s, now, top);
      }
    }
  }

  /** What is kept of one new backup and the kept ones is what is kept of it and all of them. */
  lemma {:induction false} Incremental(s: set<Backup>, t: set<Backup>, x: Backup, now: int, b: Backup)
    requires Covers(t, s, now)
    ensures Kept(t + {x}, now, b) <==> Kept(s + {x}, now, b)
  {
    if Eligible(b, now) {
      SameCount(s, t, x, now, DayOf(b));
      if Kept(t + {x}, now, b) {
        SameNewest(s, t, x, now, b);
      }
      if Kept(s + {x}, now, b) && b != x {
        Added(s, x, now, DayOf(b));
        NotLarger(NewerDays(s, now, DayOf(b)), NewerDays(s + {x}, now, DayOf(b)));
        assert Kept(s, now, b);
      }
    }
  }

  // ---------------------------------------------------------------- the main properties

  lemma {:induction false} RetentionCovers(r: seq<Backup>, s: set<Backup>, now: int)
    requires IsRetention(r, s, now)
    ensures Covers(Elements(r), s, now)
  {
    forall b | b in Elements(r) ensures b in s { assert Kept(s, now, b); }
  }

  /** R(x + R(S)) is R(x + S). */
  lemma {:induction false} RetentionIncremental(s: set<Backup>, r: seq<Backup>, x: Backup, now: int, u: seq<Backup>)
    requires IsRetention(r, s, now)
    ensures IsRetention(u, Elements(r) + {x}, now) <==> IsRetention(u, s + {x}, now)
  {
    RetentionCovers(r, s, now);
    forall b ensures Kept(Elements(r) + {x}, now, b) <==> Kept(s + {x}, now, b) {
      Incremental(s, Elements(r), x, now, b);
    }
    if Descending(u) && IsRetention(u, Elements(r) + {x}, now) {
      forall b ensures b in u <==> Kept(s + {x}, now, b) { assert b in u <==> Kept(Elements(r) + {x}, now, b); }
    }
    if Descending(u) && IsRetention(u, s + {x}, now) {
      forall b ensures b in u <==> Kept(Elements(r) + {x}, now, b) { assert b in u <==> Kept(s + {x}, now, b); }
    }
  }

  /** Retaining what was retained changes nothing: R(R(S)) is R(S). */
  lemma {:induction false} RetentionIdempotent(s: set<Backup>, r: seq<Backup>, now: int, u: seq<Backup>)
    requires IsRetention(r, s, now)
    ensures IsRetention(u, Elements(r), now) <==> u == r
  {
    RetentionCovers(r, s, now);
    forall b ensures Kept(Elements(r), now, b) <==> Kept(s, now, b) {
      if Eligible(b, now) && b in s {
        Incremental(s, Elements(r), b, now, b);
        if Kept(s, now, b) {
          assert s + {b} == s && Elements(r) + {b} == Elements(r);
        }
        if Kept(Elements(r), now, b) {
          assert s + {b} == s && Elements(r) + {b} == Elements(r);
        }
      }
    }
    assert IsRetention(r, Elements(r), now) by {
      forall b ensures b in r <==> Kept(Elements(r), now, b) { assert b in r <==> Kept(s, now, b); }
    }
    if IsRetention(u, Elements(r), now) {
      RetentionUnique(u, r, Elements(r), Elements(r), now, now);
    }
  }

  /** Once every backup is past, the time of the reading does not matter. */
  lemma {:induction false} AnyLaterTime(s: set<Backup>, now: int, later: int, b: Backup)
    requires forall c :: c in s && c.instant.Some? ==> c.instant.value <= now <= later
    ensures Kept(s, now, b) <==> Kept(s, later, b)
  {
    if b.instant.Some? {
      assert b in s ==> NewerDays(s, now, DayOf(b)) == NewerDays(s, later, DayOf(b));
    }
  }
}
