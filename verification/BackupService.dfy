/** dailyRetention as it runs, and the backups that repeated runs of the service leave behind. */
module BackupService {
  import opened Options
  import opened Lists
  import opened Retention
  import opened Sorting

  // ---------------------------------------------------------------- dailyRetention

  /** The values of a map by day; a JavaScript Map lists them in the order in which their keys were
      first set, here from the newest day on. */
  ghost predicate ByDay(values: seq<Backup>, days: set<int>) {
    && Descending(values)
    && (forall k :: 0 <= k < |values| ==> DayOf(values[k]) in days)
    && (forall j, k :: 0 <= j < k < |values| ==> DayOf(values[j]) > DayOf(values[k]))
    && (forall d :: d in days ==> exists k :: 0 <= k < |values| && DayOf(values[k]) == d)
  }

  ghost predicate Taken(t: seq<Backup>, now: int, values: seq<Backup>) {
    forall k :: 0 <= k < |values| ==> values[k] in t && Eligible(values[k], now)
  }

  /** Every eligible backup before position i has its day in the map. */
  ghost predicate Covered(t: seq<Backup>, i: nat, now: int, days: set<int>) {
    i <= |t| && forall j :: 0 <= j < i && Eligible(t[j], now) ==> DayOf(t[j]) in days
  }

  /** No value is older than a backup that follows, or than one of the same day. */
  ghost predicate Above(t: seq<Backup>, i: nat, now: int, values: seq<Backup>) {
    forall j, k :: 0 <= j < |t| && 0 <= k < |values| && Eligible(t[j], now) && values[k].instant.Some?
                   && (j >= i || DayOf(t[j]) == DayOf(values[k])) ==>
      t[j].instant.value <= values[k].instant.value
  }

  ghost predicate Filled(t: seq<Backup>, i: nat, now: int, values: seq<Backup>, days: set<int>) {
    ByDay(values, days) && Taken(t, now, values) && Covered(t, i, now, days) && Above(t, i, now, values)
  }

  /** Sorted so that later instants come first. */
  ghost predicate NewestFirst(t: seq<Backup>) {
    forall i, j :: 0 <= i < j < |t| && t[i].instant.Some? && t[j].instant.Some? ==>
      t[i].instant.value >= t[j].instant.value
  }

  lemma {:induction false} SortedNewestFirst(backups: seq<Backup>, rank: Backup -> int)
    requires OrderedAsInstants(rank, Elements(backups))
    ensures NewestFirst(SortBy(backups, (b: Backup) => -rank(b)))
    ensures Elements(SortBy(backups, (b: Backup) => -rank(b))) == Elements(backups)
  {
    var key := (b: Backup) => -rank(b);
    var t := SortBy(backups, key);
    SortAscending(backups, key);
    SortElements(backups, key);
    forall b ensures b in t <==> b in backups {
      assert b in t <==> b in multiset(t);
      assert b in backups <==> b in multiset(backups);
    }
    forall i, j | 0 <= i < j < |t| && t[i].instant.Some? && t[j].instant.Some?
      ensures t[i].instant.value >= t[j].instant.value
    {
      assert t[i] in backups && t[j] in backups;
      assert key(t[i]) <= key(t[j]);
      assert rank(t[j]) <= rank(t[i]);
    }
  }

  lemma {:induction false} FilledSkips(t: seq<Backup>, i: nat, now: int, values: seq<Backup>, days: set<int>)
    requires Filled(t, i, now, values, days) && i < |t| && (Eligible(t[i], now) ==> DayOf(t[i]) in days)
    ensures Filled(t, i + 1, now, values, days)
  {}

  lemma {:induction false} ByDayNext(values: seq<Backup>, days: set<int>, v: Backup)
    requires ByDay(values, days) && v.instant.Some? && DayOf(v) !in days
    requires forall k :: 0 <= k < |values| ==> v.instant.value <= values[k].instant.value
    ensures ByDay(values + [v], days + {DayOf(v)})
  {
    var more := values + [v];
    assert more[|values|] == v && forall k :: 0 <= k < |values| ==> more[k] == values[k];
    forall k | 0 <= k < |values| ensures DayOf(values[k]) > DayOf(v) && values[k].instant.value > v.instant.value {}
    forall d | d in days ensures exists k :: 0 <= k < |more| && DayOf(more[k]) == d {
      var k :| 0 <= k < |values| && DayOf(values[k]) == d;
      assert DayOf(more[k]) == d;
    }
  }

  lemma {:induction false} AboveNext(t: seq<Backup>, i: nat, now: int, values: seq<Backup>, days: set<int>)
    requires Above(t, i, now, values) && Covered(t, i, now, days) && NewestFirst(t)
    requires i < |t| && Eligible(t[i], now) && DayOf(t[i]) !in days
    ensures Above(t, i + 1, now, values + [t[i]])
  {
    var more := values + [t[i]];
    assert forall j :: 0 <= j < i && Eligible(t[j], now) ==> DayOf(t[j]) != DayOf(t[i]);
    forall j, k | 0 <= j < |t| && 0 <= k < |more| && Eligible(t[j], now) && more[k].instant.Some?
                  && (j >= i + 1 || DayOf(t[j]) == DayOf(more[k]))
      ensures t[j].instant.value <= more[k].instant.value
    {
      assert more[k] == if k == |values| then t[i] else values[k];
    }
  }

  lemma {:induction false} FilledTakes(t: seq<Backup>, i: nat, now: int, values: seq<Backup>, days: set<int>)
    requires Filled(t, i, now, values, days) && i < |t| && Eligible(t[i], now) && DayOf(t[i]) !in days && NewestFirst(t)
    ensures Filled(t, i + 1, now, values + [t[i]], days + {DayOf(t[i])})
  {
    ByDayNext(values, days, t[i]);
    AboveNext(t, i, now, values, days);
  }

  function DaysUpTo(values: seq<Backup>, k: nat): set<int>
    requires k <= |values| && Descending(values)
  {
    set j | 0 <= j < k :: DayOf(values[j])
  }

  lemma {:induction false} OneMoreDay(values: seq<Backup>, k: nat)
    requires k < |values| && Descending(values)
    ensures DaysUpTo(values, k + 1) == DaysUpTo(values, k) + {DayOf(values[k])}
  {}

  lemma {:induction false} CountDays(values: seq<Backup>, k: nat)
    requires k <= |values| && Descending(values)
    requires forall i, j :: 0 <= i < j < |values| ==> DayOf(values[i]) > DayOf(values[j])
    ensures |DaysUpTo(values, k)| == k
  {
    if k > 0 {
      CountDays(values, k - 1);
      OneMoreDay(values, k - 1);
      assert DayOf(values[k - 1]) !in DaysUpTo(values, k - 1);
    }
  }

  lemma {:induction false} AtIndex(t: seq<Backup>, b: Backup) returns (n: nat)
    requires b in Elements(t)
    ensures n < |t| && t[n] == b
  {
    n :| n < |t| && t[n] == b;
  }

  /** The value of a backup's day. */
  lemma {:induction false} ValueOf(t: seq<Backup>, now: int, values: seq<Backup>, days: set<int>,
          b: Backup) returns (k: nat)
    requires Filled(t, |t|, now, values, days) && b in Elements(t) && Eligible(b, now)
    ensures k < |values| && DayOf(values[k]) == DayOf(b) && values[k].instant.value >= b.instant.value
  {
    var n := AtIndex(t, b);
    assert DayOf(t[n]) in days;
    k :| k < |values| && DayOf(values[k]) == DayOf(b);
    assert t[n].instant.value <= values[k].instant.value;
  }

  lemma {:induction false} DaysBefore(t: seq<Backup>, now: int, values: seq<Backup>, days: set<int>, k: nat)
    requires Filled(t, |t|, now, values, days) && k < |values|
    ensures NewerDays(Elements(t), now, DayOf(values[k])) == DaysUpTo(values, k)
  {
    forall d | d in NewerDays(Elements(t), now, DayOf(values[k])) ensures d in DaysUpTo(values, k) {
      var b :| b in Elements(t) && Eligible(b, now) && DayOf(b) == d && DayOf(b) > DayOf(values[k]);
      var j := ValueOf(t, now, values, days, b);
      assert j < k;
    }
    forall j | 0 <= j < k ensures DayOf(values[j]) in NewerDays(Elements(t), now, DayOf(values[k])) {
      assert values[j] in Elements(t);
    }
  }

  lemma {:induction false} ValueNewest(t: seq<Backup>, now: int, values: seq<Backup>, days: set<int>, k: nat)
    requires Filled(t, |t|, now, values, days) && k < |values|
    ensures Kept(Elements(t), now, values[k]) <==> k < RETAIN
  {
    DaysBefore(t, now, values, days, k);
    CountDays(values, k);
    forall c | c in Elements(t) && Eligible(c, now) && DayOf(c) == DayOf(values[k])
      ensures c.instant.value <= values[k].instant.value
    {
      var n := AtIndex(t, c);
    }
  }

  lemma {:induction false} KeptIsValue(t: seq<Backup>, now: int, values: seq<Backup>, days: set<int>,
          b: Backup) returns (k: nat)
    requires Filled(t, |t|, now, values, days) && DistinctInstants(Elements(t)) && Kept(Elements(t), now, b)
    ensures k < |values| && values[k] == b
  {
    k := ValueOf(t, now, values, days, b);
    assert values[k] in Elements(t);
    assert values[k].instant == b.instant;
  }

  function Front(values: seq<Backup>): seq<Backup> {
    if |values| <= RETAIN then values else values[..RETAIN]
  }

  /** The first values of the map are the retention. */
  lemma {:induction false} FilledRetains(t: seq<Backup>, now: int, values: seq<Backup>, days: set<int>)
    requires Filled(t, |t|, now, values, days) && DistinctInstants(Elements(t))
    ensures IsRetention(Front(values), Elements(t), now)
  {
    var r := Front(values);
    forall b ensures b in r <==> Kept(Elements(t), now, b) {
      if b in r {
        var k :| 0 <= k < |r| && r[k] == b;
        ValueNewest(t, now, values, days, k);
      }
      if Kept(Elements(t), now, b) {
        var k := KeptIsValue(t, now, values, days, b);
        ValueNewest(t, now, values, days, k);
        assert r[k] == b;
      }
    }
  }

  /** The first eligible backup of its day in a list. */
  predicate Leads(t: seq<Backup>, j: nat, now: int)
    requires j < |t|
  {
    Eligible(t[j], now) && forall k :: 0 <= k < j && Eligible(t[k], now) ==> DayOf(t[k]) != DayOf(t[j])
  }

  /** The first of each day, among the first i. */
  function Leaders(t: seq<Backup>, i: nat, now: int): seq<Backup>
    requires i <= |t|
  {
    if i == 0 then [] else Leaders(t, i - 1, now) + if Leads(t, i - 1, now) then [t[i - 1]] else []
  }

  function EligibleDays(t: seq<Backup>, i: nat, now: int): set<int>
    requires i <= |t|
  {
    set k | 0 <= k < i && Eligible(t[k], now) :: DayOf(t[k])
  }

  lemma {:induction false} NextDay(t: seq<Backup>, i: nat, now: int)
    requires i < |t|
    ensures EligibleDays(t, i + 1, now) == EligibleDays(t, i, now) + if Eligible(t[i], now) then {DayOf(t[i])} else {}
    ensures Leads(t, i, now) <==> Eligible(t[i], now) && DayOf(t[i]) !in EligibleDays(t, i, now)
  {}

  lemma {:induction false} LeadersNext(t: seq<Backup>, i: nat, now: int)
    requires i < |t|
    ensures Leaders(t, i + 1, now) == if Leads(t, i, now) then Leaders(t, i, now) + [t[i]] else Leaders(t, i, now)
  {}

  /** The values and days after i backups. */
  ghost predicate Led(t: seq<Backup>, i: nat, now: int, values: seq<Backup>, days: set<int>) {
    i <= |t| && values == Leaders(t, i, now) && days == EligibleDays(t, i, now) && Filled(t, i, now, values, days)
  }

  lemma {:induction false} LedFirst(t: seq<Backup>, now: int)
    ensures Led(t, 0, now, [], {})
  {
    assert EligibleDays(t, 0, now) == {};
  }

  lemma {:induction false} LedNext(t: seq<Backup>, i: nat, now: int, values: seq<Backup>, days: set<int>)
      returns (more: seq<Backup>, seen: set<int>)
    requires NewestFirst(t) && i < |t| && Led(t, i, now, values, days)
    ensures Led(t, i + 1, now, more, seen)
  {
    NextDay(t, i, now);
    LeadersNext(t, i, now);
    more, seen := values, days;
    if Leads(t, i, now) {
      FilledTakes(t, i, now, values, days);
      more, seen := values + [t[i]], days + {DayOf(t[i])};
    } else {
      assert EligibleDays(t, i + 1, now) == days;
      FilledSkips(t, i, now, values, days);
    }
  }

  lemma {:induction false} LeadersFilled(t: seq<Backup>, i: nat, now: int) returns (values: seq<Backup>, days: set<int>)
    requires NewestFirst(t) && i <= |t|
    ensures Led(t, i, now, values, days)
    decreases i
  {
    if i == 0 {
      LedFirst(t, now);
      values, days := [], {};
    } else {
      values, days := LeadersFilled(t, i - 1, now);
      values, days := LedNext(t, i - 1, now, values, days);
    }
  }

  /** The backups by the text of their timestamps, latest first. */
  function Latest(backups: seq<Backup>, rank: Backup -> int): seq<Backup> {
    SortBy(backups, (b: Backup) => -rank(b))
  }

  /** What the rule comes to on any list: the first of each day in the order of the text, 30 at most. */
  function Reduced(backups: seq<Backup>, now: int, rank: Backup -> int): seq<Backup> {
    var t := Latest(backups, rank);
    Front(Leaders(t, |t|, now))
  }

  lemma {:induction false} LeadersTaken(t: seq<Backup>, i: nat, now: int)
    requires i <= |t|
    ensures forall k :: 0 <= k < |Leaders(t, i, now)| ==>
      Leaders(t, i, now)[k] in t && Eligible(Leaders(t, i, now)[k], now)
  {
    if i > 0 { LeadersTaken(t, i - 1, now); }
  }

  lemma {:induction false} ReducedDated(backups: seq<Backup>, now: int, rank: Backup -> int)
    ensures forall k :: 0 <= k < |Reduced(backups, now, rank)| ==> Reduced(backups, now, rank)[k].instant.Some?
  {
    var t := Latest(backups, rank);
    LeadersTaken(t, |t|, now);
  }

  /** When the text orders backups as their instants do, and no two were made at once, it comes to the
      newest backup of each of the newest days. */
  lemma {:induction false} ReducedRetains(backups: seq<Backup>, now: int, rank: Backup -> int)
    requires OrderedAsInstants(rank, Elements(backups)) && DistinctInstants(Elements(backups))
    ensures IsRetention(Reduced(backups, now, rank), Elements(backups), now)
  {
    var t := Latest(backups, rank);
    SortedNewestFirst(backups, rank);
    var values, days := LeadersFilled(t, |t|, now);
    FilledRetains(t, now, values, days);
  }

  method DailyRetention(backups: seq<Backup>, now: int, rank: Backup -> int) returns (r: seq<Backup>)
    ensures r == Reduced(backups, now, rank)
    ensures OrderedAsInstants(rank, Elements(backups)) && DistinctInstants(Elements(backups)) ==>
      IsRetention(r, Elements(backups), now)
  {
    var t := Latest(backups, rank);
    var days: set<int> := {};
    var values: seq<Backup> := [];
    for i := 0 to |t|
      invariant values == Leaders(t, i, now) && days == EligibleDays(t, i, now)
    {
      NextDay(t, i, now);
      if !Eligible(t[i], now) {
        continue;
      }
      var day := DayOf(t[i]);
      if day !in days {
        days := days + {day};
        values := values + [t[i]];
      }
    }
    r := Front(values);
    if OrderedAsInstants(rank, Elements(backups)) && DistinctInstants(Elements(backups)) {
      ReducedRetains(backups, now, rank);
    }
  }

  // ---------------------------------------------------------------- the service

  /** All of these were made by now. */
  predicate Past(s: set<Backup>, now: int) {
    forall b :: b in s ==> b.instant.Some? && b.instant.value <= now
  }

  /** Both sets have the same retention. */
  ghost predicate KeepSame(s: set<Backup>, t: set<Backup>, now: int) {
    forall b :: Kept(s, now, b) <==> Kept(t, now, b)
  }

  lemma {:induction false} KeepSameLater(s: set<Backup>, t: set<Backup>, now: int, later: int)
    requires KeepSame(s, t, now) && Past(s, now) && Past(t, now) && now <= later
    ensures KeepSame(s, t, later)
  {
    forall b ensures Kept(s, later, b) <==> Kept(t, later, b) {
      AnyLaterTime(s, now, later, b);
      AnyLaterTime(t, now, later, b);
    }
  }

  lemma {:induction false} KeptOf(r: seq<Backup>, s: set<Backup>, now: int)
    requires IsRetention(r, s, now) && DistinctInstants(s)
    ensures Elements(r) <= s && DistinctInstants(Elements(r)) && KeepSame(Elements(r), s, now)
  {
    RetentionCovers(r, s, now);
    RetentionIdempotent(s, r, now, r);
    forall b ensures Kept(Elements(r), now, b) <==> Kept(s, now, b) {
      assert b in r <==> Kept(s, now, b);
      assert b in r <==> Kept(Elements(r), now, b);
    }
  }

  /** Sets that keep the same still do when a backup is added. */
  lemma {:induction false} KeepSameAdded(s: set<Backup>, t: set<Backup>, x: Backup, now: int, r: seq<Backup>)
    requires KeepSame(s, t, now) && IsRetention(r, s, now)
    ensures KeepSame(s + {x}, t + {x}, now) && KeepSame(Elements(r) + {x}, t + {x}, now)
  {
    RetentionCovers(r, s, now);
    assert Covers(Elements(r), t, now) by {
      forall b | b in r ensures b in t { assert Kept(s, now, b); assert Kept(t, now, b); }
      forall b | Kept(t, now, b) ensures b in Elements(r) { assert Kept(s, now, b); }
    }
    forall b ensures Kept(s + {x}, now, b) <==> Kept(t + {x}, now, b)
             ensures Kept(Elements(r) + {x}, now, b) <==> Kept(t + {x}, now, b) {
      Incremental(s, Elements(r), x, now, b);
      Incremental(t, Elements(r), x, now, b);
    }
  }

  predicate DistinctIds(s: seq<Backup>) {
    forall i, j :: 0 <= i < |s| && 0 <= j < |s| && s[i].id == s[j].id ==> s[i] == s[j]
  }

  datatype Outcome = Current(backup: Backup) | Created(backup: Backup)

  /** The store keeps what one pass over all backups ever stored would keep. */
  ghost predicate Orderly(backups: seq<Backup>, ever: set<Backup>, now: int) {
    && Past(ever, now) && DistinctInstants(ever) && Elements(backups) <= ever && DistinctIds(backups)
    && KeepSame(Elements(backups), ever, now)
  }

  /** The backups with these ids. */
  function Named(ids: set<string>): Backup -> bool {
    (b: Backup) => b.id in ids
  }

  lemma {:induction false} FilterHas(list: seq<Backup>, p: Backup -> bool, b: Backup)
    ensures b in Filter(list, p) <==> b in list && p(b)
  {
    if list != [] {
      var rest, last := list[..|list| - 1], list[|list| - 1];
      assert list == rest + [last];
      FilterHas(rest, p, b);
    }
  }

  /** The remote store of backups, and every backup that was ever put there. */
  class Transport {
    var backups: seq<Backup>
    ghost var ever: set<Backup>

    constructor (initial: seq<Backup>)
      ensures backups == initial && ever == Elements(initial)
    {
      backups, ever := initial, Elements(initial);
    }

    method Put(x: Backup)
      modifies this
      ensures backups == old(backups) + [x] && ever == old(ever) + {x}
    {
      backups := backups + [x];
      ever := ever + {x};
    }

    method Retain(ids: set<string>)
      modifies this`backups
      ensures backups == Filter(old(backups), Named(ids))
      ensures forall b :: b in backups <==> b in old(backups) && b.id in ids
    {
      ghost var list := backups;
      backups := FilterList(backups, Named(ids));
      forall b ensures b in backups <==> b in list && b.id in ids { FilterHas(list, Named(ids), b); }
    }
  }

  function IdsOf(r: seq<Backup>): set<string> {
    set i | 0 <= i < |r| :: r[i].id
  }

  lemma {:induction false} RetentionLater(r: seq<Backup>, s: set<Backup>, now: int, later: int)
    requires IsRetention(r, s, now) && Past(s, now) && now <= later
    ensures IsRetention(r, s, later)
  {
    forall b ensures b in r <==> Kept(s, later, b) {
      AnyLaterTime(s, now, later, b);
    }
  }

  lemma {:induction false} FoundById(list: seq<Backup>, r: seq<Backup>, b: Backup)
    requires DistinctIds(list) && Elements(r) <= Elements(list)
    ensures b in list && b.id in IdsOf(r) <==> b in r
  {
    if b in r {
      var n := AtIndex(r, b);
      assert b in Elements(r);
    }
    if b in list && b.id in IdsOf(r) {
      var k :| 0 <= k < |r| && r[k].id == b.id;
      assert r[k] in Elements(r);
      var i := AtIndex(list, r[k]);
      var j := AtIndex(list, b);
      assert list[i].id == list[j].id;
    }
  }

  /** Whether there is a backup of today shows in the retention. */
  lemma {:induction false} TodayShows(existing: seq<Backup>, list: set<Backup>, ever: set<Backup>, now: int, today: int)
    requires IsRetention(existing, list, now) && list <= ever && KeepSame(list, ever, now) && Past(ever, now)
    requires now / DAY <= today
    ensures (exists b :: b in existing && DayOf(b) == today) <==> (exists b :: b in ever && DayOf(b) == today)
  {
    if b :| b in existing && DayOf(b) == today {
      assert Kept(list, now, b);
      assert b in ever;
    }
    if b :| b in ever && DayOf(b) == today {
      var top := Largest(ever, now, today, b);
      forall c | c in ever ensures DayOf(c) <= today {}
      assert NewerDays(ever, now, today) == {};
      assert Kept(ever, now, top);
      assert Kept(list, now, top);
      assert top in existing;
    }
  }

  /** The sets after a new backup is stored and the rest is dropped. */
  lemma {:induction false} StoredRetention(list: seq<Backup>, ever: set<Backup>, existing: seq<Backup>, x: Backup,
          r: seq<Backup>, now: int)
    requires IsRetention(existing, Elements(list), now) && KeepSame(Elements(list), ever, now)
    requires DistinctInstants(ever + {x}) && Elements(list) <= ever
    requires IsRetention(r, Elements([x] + existing), now)
    ensures IsRetention(r, ever + {x}, now) && Elements(r) <= Elements(list + [x])
    ensures KeepSame(Elements(r), ever + {x}, now)
  {
    KeepSameAdded(Elements(list), ever, x, now, existing);
    forall b ensures b in Elements([x] + existing) <==> b in Elements(existing) + {x} {}
    assert Elements([x] + existing) == Elements(existing) + {x};
    forall b ensures b in r <==> Kept(ever + {x}, now, b) {
      assert b in r <==> Kept(Elements(existing) + {x}, now, b);
    }
    KeptOf(r, ever + {x}, now);
    forall b | b in Elements(r) ensures b in Elements(list + [x]) {
      assert Kept(Elements([x] + existing), now, b);
      if b != x { assert b in existing; assert Kept(Elements(list), now, b); }
    }
  }

  method FindDay(existing: seq<Backup>, today: int) returns (found: Option<Backup>)
    requires forall k :: 0 <= k < |existing| ==> existing[k].instant.Some?
    ensures found.Some? ==> found.value in existing && found.value.instant.Some? && DayOf(found.value) == today
    ensures found.None? ==> forall k :: 0 <= k < |existing| ==> DayOf(existing[k]) != today
  {
    for i := 0 to |existing|
      invariant forall k :: 0 <= k < i ==> DayOf(existing[k]) != today
    {
      if DayOf(existing[i]) == today {
        return Some(existing[i]);
      }
    }
    return None;
  }

  lemma {:induction false} NewInstant(ever: set<Backup>, x: Backup, listed: int, named: int)
    requires Past(ever, listed) && DistinctInstants(ever) && x.instant.Some? && listed <= named <= x.instant.value
    requires forall b :: b in ever ==> DayOf(b) != named / DAY
    ensures DistinctInstants(ever + {x})
  {
    forall b | b in ever ensures b.instant != x.instant {
      assert DayOf(b) != named / DAY;
    }
  }

  lemma {:induction false} StoredValid(list: seq<Backup>, retained: seq<Backup>, left: seq<Backup>,
          ever: set<Backup>, now: int)
    requires IsRetention(retained, ever, now) && DistinctIds(list)
    requires Elements(retained) <= Elements(list) && KeepSame(Elements(retained), ever, now)
    requires (forall b :: b in left <==> b in retained) && Past(ever, now) && DistinctInstants(ever)
    ensures Orderly(left, ever, now)
    ensures forall b :: b in left <==> Kept(ever, now, b)
  {
    assert Elements(left) == Elements(retained);
    RetentionCovers(retained, ever, now);
    forall b | b in left ensures b in list {
      assert b in Elements(retained);
    }
    forall i, j | 0 <= i < |left| && 0 <= j < |left| && left[i].id == left[j].id ensures left[i] == left[j] {
      var m := AtIndex(list, left[i]);
      var n := AtIndex(list, left[j]);
      assert list[m].id == list[n].id;
    }
  }

  /** What is left after a new backup is stored and the rest is dropped. */
  function Stored(list: seq<Backup>, existing: seq<Backup>, x: Backup, now: int, rank: Backup -> int): seq<Backup> {
    Filter(list + [x], Named(IdsOf(Reduced([x] + existing, now, rank))))
  }

  lemma {:induction false} StoredOrderly(list: seq<Backup>, ever: set<Backup>, existing: seq<Backup>, x: Backup,
                                         now: int, rank: Backup -> int)
    requires OrderedAsInstants(rank, ever + {x}) && DistinctInstants(ever + {x})
    requires Past(ever + {x}, now) && Elements(list) <= ever
    requires DistinctIds(list + [x]) && KeepSame(Elements(list), ever, now)
    requires IsRetention(existing, Elements(list), now)
    ensures Orderly(Stored(list, existing, x, now, rank), ever + {x}, now)
    ensures forall b :: b in Stored(list, existing, x, now, rank) <==> Kept(ever + {x}, now, b)
  {
    RetentionCovers(existing, Elements(list), now);
    var retained := Reduced([x] + existing, now, rank);
    assert Elements([x] + existing) <= ever + {x} by {
      forall b | b in [x] + existing ensures b in ever + {x} { if b != x { assert b in Elements(existing); } }
    }
    ReducedRetains([x] + existing, now, rank);
    StoredRetention(list, ever, existing, x, retained, now);
    forall b ensures b in Stored(list, existing, x, now, rank) <==> b in retained {
      FilterHas(list + [x], Named(IdsOf(retained)), b);
      FoundById(list + [x], retained, b);
    }
    StoredValid(list + [x], retained, Stored(list, existing, x, now, rank), ever + {x}, now);
  }

  /** The clock is read when the list is reduced, to name the day, to stamp the new backup, and to
      reduce again. */
  datatype Readings = Readings(listed: int, named: int, stamped: int, reduced: int)

  /** The backup that a run makes if it makes one. */
  function Stamped(id: string, createdAt: string, at: Readings): Backup {
    Backup(id, createdAt, Some(at.stamped))
  }

  /** It does not go back, the new id is not in use, and with the new one the timestamps compare as
      their instants do. */
  ghost predicate Regular(list: seq<Backup>, ever: set<Backup>, rank: Backup -> int, id: string, createdAt: string,
                          at: Readings) {
    && OrderedAsInstants(rank, ever + {Stamped(id, createdAt, at)})
    && Orderly(list, ever, at.listed) && at.listed <= at.named <= at.stamped <= at.reduced
    && forall i :: 0 <= i < |list| ==> list[i].id != id
  }

  lemma {:induction false} RegularRun(list: seq<Backup>, ever: set<Backup>, rank: Backup -> int, id: string,
                                      createdAt: string,
                                      at: Readings)
    requires Regular(list, ever, rank, id, createdAt, at)
    ensures var existing := Reduced(list, at.listed, rank);
      && ((exists b :: b in existing && b.instant.Some? && DayOf(b) == at.named / DAY) <==>
            (exists b :: b in ever && DayOf(b) == at.named / DAY))
      && (forall b :: b in existing ==> b in list) && Orderly(list, ever, at.reduced)
      && IsRetention(existing, Elements(list), at.listed) && IsRetention(existing, Elements(list), at.reduced)
  {
    var existing := Reduced(list, at.listed, rank);
    ReducedRetains(list, at.listed, rank);
    RetentionCovers(existing, Elements(list), at.listed);
    TodayShows(existing, Elements(list), ever, at.listed, at.named / DAY);
    KeepSameLater(Elements(list), ever, at.listed, at.reduced);
    RetentionLater(existing, Elements(list), at.listed, at.reduced);
    forall b | b in existing ensures b in list { assert b in Elements(existing); }
  }

  lemma {:induction false} RegularStored(list: seq<Backup>, ever: set<Backup>, rank: Backup -> int, x: Backup,
                                         at: Readings)
    requires Regular(list, ever, rank, x.id, x.createdAt, at) && x == Stamped(x.id, x.createdAt, at)
    requires forall b :: b in ever ==> DayOf(b) != at.named / DAY
    ensures var left := Stored(list, Reduced(list, at.listed, rank), x, at.reduced, rank);
      Orderly(left, ever + {x}, at.reduced) && forall b :: b in left <==> Kept(ever + {x}, at.reduced, b)
  {
    RegularRun(list, ever, rank, x.id, x.createdAt, at);
    NewInstant(ever, x, at.listed, at.named);
    StoredOrderly(list, ever, Reduced(list, at.listed, rank), x, at.reduced, rank);
  }

  /** The store and all backups ever made, after a run. */
  datatype History = History(list: seq<Backup>, ever: set<Backup>)

  predicate MadeOn(list: seq<Backup>, day: int) {
    exists b :: b in list && b.instant.Some? && DayOf(b) == day
  }

  function RunAfter(h: History, rank: Backup -> int, id: string, createdAt: string, at: Readings): History {
    var existing := Reduced(h.list, at.listed, rank);
    var x := Stamped(id, createdAt, at);
    if MadeOn(existing, at.named / DAY) then h
    else History(Stored(h.list, existing, x, at.reduced, rank), h.ever + {x})
  }

  /** One run of the service: what it does in any case, and what that comes to in a regular one. */
  method BackUp(transport: Transport, rank: Backup -> int, id: string, createdAt: string, at: Readings)
    returns (outcome: Outcome)
    modifies transport
    ensures
      History(transport.backups, transport.ever) ==
      RunAfter(History(old(transport.backups), old(transport.ever)), rank, id, createdAt, at)
    ensures
      var existing := Reduced(old(transport.backups), at.listed, rank);
      match outcome
      case Current(b) => b in existing && b.instant.Some? && DayOf(b) == at.named / DAY
      case Created(b) => !MadeOn(existing, at.named / DAY) && b == Stamped(id, createdAt, at)
    ensures Regular(old(transport.backups), old(transport.ever), rank, id, createdAt, at) ==>
      && Orderly(transport.backups, transport.ever, at.reduced)
      && (outcome.Created? <==> !exists b :: b in old(transport.ever) && DayOf(b) == at.named / DAY)
      && (outcome.Created? ==> forall b :: b in transport.backups <==> Kept(transport.ever, at.reduced, b))
      && (outcome.Current? ==> outcome.backup in transport.backups)
  {
    ghost var ever := transport.ever;
    var list := transport.backups;
    var existing := DailyRetention(list, at.listed, rank);
    ReducedDated(list, at.listed, rank);
    if Regular(list, ever, rank, id, createdAt, at) { RegularRun(list, ever, rank, id, createdAt, at); }
    var found := FindDay(existing, at.named / DAY);
    if found.Some? {
      return Current(found.value);
    }
    var x := Stamped(id, createdAt, at);
    transport.Put(x);
    var retained := DailyRetention([x] + existing, at.reduced, rank);
    transport.Retain(IdsOf(retained));
    if Regular(list, ever, rank, id, createdAt, at) { RegularStored(list, ever, rank, x, at); }
    outcome := Created(x);
  }

  // ---------------------------------------------------------------- over whole histories

  /** The instants that toISOString prints with four digits of the year. */
  predicate FourDigits(instant: int) {
    0 <= instant < 253402300800000
  }

  /** toISOString, and the place of a text in the order of localeCompare. */
  datatype Clockwork = Clockwork(stamp: int -> string, place: string -> int)

  /** The printed timestamps compare as text in the order of their instants. */
  ghost predicate Canonical(c: Clockwork) {
    forall m, n :: FourDigits(m) && FourDigits(n) ==> (c.place(c.stamp(m)) <= c.place(c.stamp(n)) <==> m <= n)
  }

  /** The comparator of dailyRetention: it looks at the text alone. */
  function ByText(c: Clockwork): Backup -> int {
    (b: Backup) => c.place(b.createdAt)
  }

  predicate Printed(c: Clockwork, b: Backup) {
    b.instant.Some? && FourDigits(b.instant.value) && b.createdAt == c.stamp(b.instant.value)
  }

  lemma {:induction false} TextOrders(c: Clockwork, s: set<Backup>)
    requires Canonical(c) && forall b :: b in s ==> Printed(c, b)
    ensures OrderedAsInstants(ByText(c), s)
  {
    forall b, d | b in s && d in s && b.instant.Some? && d.instant.Some?
      ensures ByText(c)(b) <= ByText(c)(d) <==> b.instant.value <= d.instant.value
    {
      assert Printed(c, b) && Printed(c, d);
    }
  }

  datatype Run = Run(id: string, at: Readings)

  /** Runs one after another, under one clock that does not go back, each with an id of its own. */
  ghost predicate InTime(runs: seq<Run>) {
    && (forall i :: 0 <= i < |runs| ==>
          var at := runs[i].at;
          at.listed <= at.named <= at.stamped <= at.reduced && FourDigits(at.stamped))
    && (forall i, j :: 0 <= i < j < |runs| ==> runs[i].at.reduced <= runs[j].at.listed && runs[i].id != runs[j].id)
  }

  /** The history after the first n runs, from an empty store on. */
  function AfterRuns(c: Clockwork, runs: seq<Run>, n: nat): History
    requires n <= |runs|
  {
    if n == 0 then History([], {})
    else
      var r := runs[n - 1];
      RunAfter(AfterRuns(c, runs, n - 1), ByText(c), r.id, c.stamp(r.at.stamped), r.at)
  }

  /** Every backup ever made comes from one of these runs. */
  ghost predicate FromRuns(c: Clockwork, runs: seq<Run>, n: nat, ever: set<Backup>)
    requires n <= |runs|
  {
    forall b :: b in ever ==>
      exists i :: 0 <= i < n && b == Stamped(runs[i].id, c.stamp(runs[i].at.stamped), runs[i].at)
  }

  lemma {:induction false} RunRegular(c: Clockwork, runs: seq<Run>, n: nat, h: History, clock: int)
    requires Canonical(c) && InTime(runs) && n < |runs| && FromRuns(c, runs, n, h.ever)
    requires Orderly(h.list, h.ever, clock) && clock <= runs[n].at.listed
    ensures Regular(h.list, h.ever, ByText(c), runs[n].id, c.stamp(runs[n].at.stamped), runs[n].at)
  {
    var r := runs[n];
    var x := Stamped(r.id, c.stamp(r.at.stamped), r.at);
    forall b | b in h.ever + {x} ensures Printed(c, b) && (b in h.ever ==> b.id != r.id) {
      if b in h.ever {
        var i :| 0 <= i < n && b == Stamped(runs[i].id, c.stamp(runs[i].at.stamped), runs[i].at);
      }
    }
    TextOrders(c, h.ever + {x});
    KeepSameLater(Elements(h.list), h.ever, clock, r.at.listed);
    forall i | 0 <= i < |h.list| ensures h.list[i].id != r.id {
      assert h.list[i] in Elements(h.list);
    }
  }

  /** The store holds just what one pass over all backups ever made would keep. */
  ghost predicate Exactly(h: History, now: int) {
    Orderly(h.list, h.ever, now) && forall b :: b in h.list <==> Kept(h.ever, now, b)
  }

  lemma {:induction false} ExactlyLater(h: History, now: int, later: int)
    requires Exactly(h, now) && now <= later
    ensures Exactly(h, later)
  {
    KeepSameLater(Elements(h.list), h.ever, now, later);
    forall b ensures b in h.list <==> Kept(h.ever, later, b) {
      AnyLaterTime(h.ever, now, later, b);
    }
  }

  lemma {:induction false} RegularAfter(h: History, rank: Backup -> int, id: string, createdAt: string, at: Readings)
    requires Regular(h.list, h.ever, rank, id, createdAt, at) && Exactly(h, at.listed)
    ensures var t := RunAfter(h, rank, id, createdAt, at);
      Exactly(t, at.reduced) && (t.ever == h.ever || t.ever == h.ever + {Stamped(id, createdAt, at)})
  {
    RegularRun(h.list, h.ever, rank, id, createdAt, at);
    if MadeOn(Reduced(h.list, at.listed, rank), at.named / DAY) {
      ExactlyLater(h, at.listed, at.reduced);
    } else {
      RegularStored(h.list, h.ever, rank, Stamped(id, createdAt, at), at);
    }
  }

  lemma {:induction false} FromRunsNext(c: Clockwork, runs: seq<Run>, n: nat, ever: set<Backup>, more: set<Backup>)
    requires n < |runs| && FromRuns(c, runs, n, ever)
    requires more == ever || more == ever + {Stamped(runs[n].id, c.stamp(runs[n].at.stamped), runs[n].at)}
    ensures FromRuns(c, runs, n + 1, more)
  {
    forall b | b in more
      ensures exists i :: 0 <= i < n + 1 && b == Stamped(runs[i].id, c.stamp(runs[i].at.stamped), runs[i].at)
    {
      if b in ever {
        var i :| 0 <= i < n && b == Stamped(runs[i].id, c.stamp(runs[i].at.stamped), runs[i].at);
      }
    }
  }

  /** What holds of the history after n runs. */
  ghost predicate Sound(c: Clockwork, runs: seq<Run>, n: nat, h: History, now: int) {
    n <= |runs| && FromRuns(c, runs, n, h.ever) && Exactly(h, now)
  }

  lemma {:induction false} SoundNext(c: Clockwork, runs: seq<Run>, n: nat, h: History, t: History)
    requires Canonical(c) && InTime(runs) && n < |runs| && Sound(c, runs, n, h, runs[n].at.listed)
    requires t == RunAfter(h, ByText(c), runs[n].id, c.stamp(runs[n].at.stamped), runs[n].at)
    ensures Sound(c, runs, n + 1, t, runs[n].at.reduced)
  {
    var r := runs[n];
    RunRegular(c, runs, n, h, r.at.listed);
    RegularAfter(h, ByText(c), r.id, c.stamp(r.at.stamped), r.at);
    FromRunsNext(c, runs, n, h.ever, t.ever);
  }

  /** After any number of runs, however far the clock jumps ahead between them, and with the comparator
      that looks at the text alone: the store holds just what one pass over all backups ever made would
      keep. */
  lemma {:induction false} RunsKeep(c: Clockwork, runs: seq<Run>, n: nat, now: int)
    requires Canonical(c) && InTime(runs) && n <= |runs| && (n > 0 ==> runs[n - 1].at.reduced <= now)
    ensures Sound(c, runs, n, AfterRuns(c, runs, n), now)
    decreases n
  {
    if n > 0 {
      RunsKeep(c, runs, n - 1, runs[n - 1].at.listed);
      SoundNext(c, runs, n - 1, AfterRuns(c, runs, n - 1), AfterRuns(c, runs, n));
      ExactlyLater(AfterRuns(c, runs, n), runs[n - 1].at.reduced, now);
    }
  }
}
