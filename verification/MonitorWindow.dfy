/** The trimmed record of a Tahto node agrees with the full history: each check sees only what the
    previous one left, yet samples and incidents are those that one pass over all checks would keep. */
module MonitorWindow {
  import opened Options
  import opened Lists
  import opened Monitor

  // ---------------------------------------------------------------- lists

  /** Once an element has the property, all later ones have it. */
  ghost predicate Rising<T>(s: seq<T>, p: T -> bool) {
    forall i, j :: 0 <= i < j < |s| && p(s[i]) ==> p(s[j])
  }

  lemma {:induction false} AppendSlice<T>(before: seq<T>, x: T, k: nat)
    requires k <= |before|
    ensures (before + [x])[k..] == before[k..] + [x]
  {}

  lemma {:induction false} RisingPrefix<T>(before: seq<T>, x: T, p: T -> bool)
    requires Rising(before + [x], p)
    ensures Rising(before, p) && forall i :: 0 <= i < |before| && p(before[i]) ==> p(x)
  {
    var s := before + [x];
    assert s[|before|] == x && forall i :: 0 <= i < |before| ==> s[i] == before[i];
  }

  /** Where the kept part starts. */
  ghost predicate StartsAt<T>(s: seq<T>, p: T -> bool, k: nat) {
    k <= |s| && (forall i :: 0 <= i < k ==> !p(s[i])) && (forall i :: k <= i < |s| ==> p(s[i]))
  }

  lemma {:induction false} StartNext<T>(before: seq<T>, x: T, p: T -> bool, k: nat)
    requires StartsAt(before, p, k) && forall i :: 0 <= i < |before| && p(before[i]) ==> p(x)
    ensures StartsAt(before + [x], p, if p(x) then k else |before| + 1)
  {
    var s := before + [x];
    assert s[|before|] == x && forall i :: 0 <= i < |before| ==> s[i] == before[i];
  }

  lemma {:induction false} FilterSuffix<T>(s: seq<T>, p: T -> bool) returns (k: nat)
    requires Rising(s, p)
    ensures StartsAt(s, p, k) && Filter(s, p) == s[k..]
  {
    if s == [] {
      k := 0;
    } else {
      var before, x := s[..|s| - 1], s[|s| - 1];
      assert s == before + [x];
      RisingPrefix(before, x, p);
      k := FilterSuffix(before, p);
      FilterNext(before, x, p);
      AppendSlice(before, x, k);
      StartNext(before, x, p, k);
      StartHolds(before, p, k);
      if !p(x) {
        k := |s|;
      }
    }
  }

  lemma {:induction false} StartHolds<T>(s: seq<T>, p: T -> bool, k: nat)
    requires StartsAt(s, p, k)
    ensures k < |s| ==> p(s[k])
  {
    if k < |s| { assert p(s[k]); }
  }

  function Start(n: nat, length: nat): nat {
    if length <= n then 0 else length - n
  }

  function Max(m: nat, n: nat): nat {
    if m < n then n else m
  }

  lemma {:induction false} LastIs<T>(n: nat, s: seq<T>)
    ensures Last(n, s) == s[Start(n, |s|)..]
  {}

  lemma {:induction false} Slices<T>(s: seq<T>, m: nat, h: nat)
    requires m + h <= |s|
    ensures s[m..][h..] == s[m + h..]
  {}

  lemma {:induction false} LastOfTail<T>(n: nat, s: seq<T>, k: nat)
    requires k <= |s|
    ensures Last(n, s[k..]) == s[Max(k, Start(n, |s|))..]
  {
    LastIs(n, s[k..]);
    Slices(s, k, Start(n, |s| - k));
  }

  lemma {:induction false} FilterOfLast<T>(n: nat, s: seq<T>, p: T -> bool)
    requires Rising(s, p)
    ensures Filter(Last(n, s), p) == Last(n, Filter(s, p))
  {
    var k := FilterSuffix(s, p);
    var m := Start(n, |s|);
    LastIs(n, s);
    LastOfTail(n, s, k);
    TailRising(s, m, p);
    var h := FilterSuffix(s[m..], p);
    TailStart(s, p, k, m, h);
    Slices(s, m, h);
  }

  /** Where the kept part of a tail starts. */
  lemma {:induction false} TailStart<T>(s: seq<T>, p: T -> bool, k: nat, m: nat, h: nat)
    requires m <= |s| && StartsAt(s, p, k) && StartsAt(s[m..], p, h)
    ensures m + h == Max(k, m)
  {
    if h < |s| - m { assert s[m..][h] == s[m + h]; }
    if h > 0 { assert s[m..][h - 1] == s[m + h - 1]; }
  }

  lemma {:induction false} TailRising<T>(s: seq<T>, m: nat, p: T -> bool)
    requires Rising(s, p) && m <= |s|
    ensures Rising(s[m..], p)
  {
    var tail := s[m..];
    forall i, j | 0 <= i < j < |tail| && p(tail[i]) ensures p(tail[j]) {
      assert tail[i] == s[m + i] && tail[j] == s[m + j];
    }
  }

  lemma {:induction false} LastAppend<T>(n: nat, s: seq<T>, x: T)
    requires n >= 1
    ensures Last(n, Last(n, s) + [x]) == Last(n, s + [x])
  {}

  lemma {:induction false} LastTwice<T>(n: nat, s: seq<T>)
    ensures Last(n, Last(n, s)) == Last(n, s)
  {}

  lemma {:induction false} LastReplaced<T>(n: nat, s: seq<T>, x: T, y: T)
    requires n >= 1
    ensures |Last(n, s + [x])| >= 1
    ensures Last(n, s + [x])[|Last(n, s + [x])| - 1 := y] == Last(n, s + [y])
  {}

  /** Whatever passes the stricter rule passes the other. */
  ghost predicate Stricter<T>(s: seq<T>, q: T -> bool, p: T -> bool) {
    forall i :: 0 <= i < |s| && q(s[i]) ==> p(s[i])
  }

  lemma {:induction false} FilterTwice<T>(s: seq<T>, p: T -> bool, q: T -> bool)
    requires Stricter(s, q, p)
    ensures Filter(Filter(s, p), q) == Filter(s, q)
  {
    if s != [] {
      var before, x := s[..|s| - 1], s[|s| - 1];
      assert s == before + [x];
      FilterTwice(before, p, q);
      FilterNext(before, x, p);
      FilterNext(before, x, q);
      FilterNext(Filter(before, p), x, q);
    }
  }

  /** The trimmed list, trimmed again by a stricter rule, is the full list trimmed by that rule. */
  lemma {:induction false} TrimTwice<T>(n: nat, s: seq<T>, p: T -> bool, q: T -> bool)
    requires Rising(s, p) && Rising(s, q) && Stricter(s, q, p)
    ensures Filter(Last(n, Filter(s, p)), q) == Last(n, Filter(s, q))
  {
    var k := FilterSuffix(s, p);
    TailRising(s, k, q);
    FilterOfLast(n, Filter(s, p), q);
    FilterTwice(s, p, q);
  }

  /** So it is when one is appended to what was kept. */
  lemma {:induction false} TrimReplaced<T>(n: nat, before: seq<T>, x: T, p: T -> bool, q: T -> bool)
    requires Rising(Filter(before, p) + [x], q) && Stricter(before, q, p)
    ensures Last(n, Filter(Last(n, Filter(before, p) + [x]), q)) == Last(n, Filter(before + [x], q))
  {
    FilterOfLast(n, Filter(before, p) + [x], q);
    LastTwice(n, Filter(Filter(before, p) + [x], q));
    FilterNext(Filter(before, p), x, q);
    FilterNext(before, x, q);
    FilterTwice(before, p, q);
  }

  /** So it is when an element that stays is appended. */
  lemma {:induction false} TrimAppended<T>(n: nat, s: seq<T>, x: T, p: T -> bool, q: T -> bool)
    requires n >= 1 && Rising(s, p) && Rising(s, q) && Stricter(s, q, p) && q(x)
    ensures Last(n, Filter(Last(n, Filter(s, p)) + [x], q)) == Last(n, Filter(s + [x], q))
  {
    TrimTwice(n, s, p, q);
    FilterNext(Last(n, Filter(s, p)), x, q);
    FilterNext(s, x, q);
    LastAppend(n, Filter(s, q), x);
  }

  // ---------------------------------------------------------------- the samples

  predicate Ordered(history: seq<Sample>) {
    forall i, j :: 0 <= i < j < |history| ==> history[i].checkedAt <= history[j].checkedAt
  }

  function Cutoff(history: seq<Sample>): int
    requires history != []
  {
    history[|history| - 1].checkedAt - RETENTION
  }

  function Window(history: seq<Sample>): seq<Sample> {
    if history == [] then [] else Last(MAX_SAMPLES, Filter(history, Since(Cutoff(history))))
  }

  lemma {:induction false} SinceRising(history: seq<Sample>, cutoff: int)
    requires Ordered(history)
    ensures Rising(history, Since(cutoff))
  {}

  lemma {:induction false} OrderedPrefix(history: seq<Sample>, x: Sample)
    requires Ordered(history + [x])
    ensures Ordered(history) && forall i :: 0 <= i < |history| ==> history[i].checkedAt <= x.checkedAt
  {
    var more := history + [x];
    assert more[|history|] == x && forall i :: 0 <= i < |history| ==> more[i] == history[i];
  }

  lemma {:induction false} WindowIs(history: seq<Sample>, last: Sample)
    requires history != [] && history[|history| - 1] == last
    ensures Window(history) == Last(MAX_SAMPLES, Filter(history, Since(last.checkedAt - RETENTION)))
  {}

  lemma {:induction false} LaterSample(history: seq<Sample>, x: Sample, cutoff: int, later: int)
    requires Ordered(history) && cutoff <= later <= x.checkedAt
    ensures Last(MAX_SAMPLES, Filter(Last(MAX_SAMPLES, Filter(history, Since(cutoff))) + [x], Since(later)))
         == Last(MAX_SAMPLES, Filter(history + [x], Since(later)))
  {
    SinceRising(history, cutoff);
    SinceRising(history, later);
    TrimAppended(MAX_SAMPLES, history, x, Since(cutoff), Since(later));
  }

  lemma {:induction false} SamplesNext(history: seq<Sample>, x: Sample)
    requires Ordered(history + [x])
    ensures SamplesAfter(Window(history), x) == Window(history + [x])
  {
    OrderedPrefix(history, x);
    WindowIs(history + [x], x);
    if history == [] {
      assert Window(history) + [x] == history + [x];
    } else {
      WindowIs(history, history[|history| - 1]);
      LaterSample(history, x, Cutoff(history), x.checkedAt - RETENTION);
    }
  }

  /** With a clock that does not go back, the stored samples are the last of the whole history within
      the retention time. */
  lemma {:induction false} SamplesExact(history: seq<Sample>)
    requires Ordered(history)
    ensures SamplesBefore(Fold(history)) == Window(history)
  {
    if history != [] {
      var before, x := history[..|history| - 1], history[|history| - 1];
      assert history == before + [x];
      OrderedPrefix(before, x);
      SamplesExact(before);
      SamplesNext(before, x);
    }
  }

  // ---------------------------------------------------------------- the incidents

  /** All incidents of the history, none dropped. */
  function AllIncidents(history: seq<Sample>): seq<Incident> {
    if history == [] then []
    else Touched(AllIncidents(history[..|history| - 1]), Streak(history), history[|history| - 1])
  }

  ghost predicate Listed(incidents: seq<Incident>, history: seq<Sample>, j: int) {
    exists k, i :: 0 <= k < |incidents| && Spans(incidents[k], history, i, j)
  }

  /** Every ready sample that ended some trouble closes an incident of the list. */
  ghost predicate ListsAll(incidents: seq<Incident>, history: seq<Sample>) {
    forall j :: 0 <= j < |history| && history[j].state.Ready? && Down(history[..j]) ==> Listed(incidents, history, j)
  }

  lemma {:induction false} ListedLater(incidents: seq<Incident>, history: seq<Sample>, failures: nat, x: Sample, j: int)
    requires Tells(incidents, history) && Listed(incidents, history, j)
    ensures Listed(Touched(incidents, failures, x), history + [x], j)
  {
    LastOpenIs(incidents);
    var k, i :| 0 <= k < |incidents| && Spans(incidents[k], history, i, j);
    assert (history + [x])[..j] == history[..j];
    assert Touched(incidents, failures, x)[k] == incidents[k];
    assert Spans(Touched(incidents, failures, x)[k], history + [x], i, j);
  }

  lemma {:induction false} ListedNow(incidents: seq<Incident>, history: seq<Sample>, failures: nat, x: Sample)
    requires Tells(incidents, history) && Down(history) && x.state.Ready?
    ensures Listed(Touched(incidents, failures, x), history + [x], |history|)
  {
    LastOpenIs(incidents);
    var i :| FirstOnset(history, i)
        && incidents[|incidents| - 1] == Incident(history[i].checkedAt, None, history[i].state);
    assert (history + [x])[..|history|] == history && (history + [x])[i] == history[i];
    assert Spans(Touched(incidents, failures, x)[|incidents| - 1], history + [x], i, |history|);
  }

  lemma {:induction false} TouchedListsAll(incidents: seq<Incident>, history: seq<Sample>, failures: nat, x: Sample)
    requires Tells(incidents, history) && ListsAll(incidents, history)
    ensures ListsAll(Touched(incidents, failures, x), history + [x])
  {
    var more := history + [x];
    forall j | 0 <= j < |more| && more[j].state.Ready? && Down(more[..j])
      ensures Listed(Touched(incidents, failures, x), more, j)
    {
      if j < |history| {
        assert more[..j] == history[..j];
        ListedLater(incidents, history, failures, x, j);
      } else {
        assert more[..j] == history;
        ListedNow(incidents, history, failures, x);
      }
    }
  }

  lemma {:induction false} AllNext(history: seq<Sample>, x: Sample)
    ensures AllIncidents(history + [x]) == Touched(AllIncidents(history), Streak(history + [x]), x)
  {
    assert (history + [x])[..|history|] == history;
  }

  /** The full list has one closed incident for each trouble that ended, and an open one if the node is
      down now. */
  lemma {:induction false} AllTell(history: seq<Sample>)
    ensures Tells(AllIncidents(history), history) && AllExplained(AllIncidents(history), history)
    ensures ListsAll(AllIncidents(history), history)
  {
    if history == [] {
      assert forall i :: !Onset(history, i);
    } else {
      var before, x := history[..|history| - 1], history[|history| - 1];
      assert history == before + [x];
      AllTell(before);
      AllNext(before, x);
      var incidents := AllIncidents(before);
      TouchedTells(incidents, before, x);
      TouchedExplained(incidents, before, Streak(history), x);
      TouchedListsAll(incidents, before, Streak(history), x);
    }
  }

  /** Incidents follow each other in time, up to now, and only the last may be open. */
  predicate InTime(incidents: seq<Incident>, now: int) {
    && (forall i, j :: 0 <= i < j < |incidents| ==> incidents[i].openedAt <= incidents[j].openedAt)
    && (forall i :: 0 <= i < |incidents| ==> incidents[i].openedAt <= now)
    && (forall i :: 0 <= i < |incidents| - 1 ==> incidents[i].closedAt.Some?)
  }

  lemma {:induction false} TouchedInTime(incidents: seq<Incident>, failures: nat, x: Sample, now: int)
    requires InTime(incidents, now) && now <= x.checkedAt
    ensures InTime(Touched(incidents, failures, x), x.checkedAt)
  {
    LastOpenIs(incidents);
  }

  lemma {:induction false} KeptRising(incidents: seq<Incident>, cutoff: int, now: int)
    requires InTime(incidents, now)
    ensures Rising(incidents, Kept(cutoff))
  {}

  function Trimmed(incidents: seq<Incident>, cutoff: int): seq<Incident> {
    Last(MAX_INCIDENTS, Filter(incidents, Kept(cutoff)))
  }

  lemma {:induction false} TailInTime(incidents: seq<Incident>, k: nat, now: int)
    requires InTime(incidents, now) && k <= |incidents|
    ensures InTime(incidents[k..], now)
  {
    var tail := incidents[k..];
    assert forall i :: 0 <= i < |tail| ==> tail[i] == incidents[k + i];
  }

  lemma {:induction false} KeptIn(incidents: seq<Incident>, cutoff: int, now: int)
    requires InTime(incidents, now)
    ensures InTime(Trimmed(incidents, cutoff), now)
    ensures Open(Trimmed(incidents, cutoff)) <==> Open(incidents)
  {
    KeptRising(incidents, cutoff, now);
    var k := FilterSuffix(incidents, Kept(cutoff));
    var m := Start(MAX_INCIDENTS, |incidents| - k);
    LastIs(MAX_INCIDENTS, incidents[k..]);
    Slices(incidents, k, m);
    TailInTime(incidents, k + m, now);
  }

  /** Closing the open incident before or after trimming comes to the same. */
  lemma {:induction false} CloseTrimmed(before: seq<Incident>, open: Incident, closed: Incident, cutoff: int,
          later: int, now: int)
    requires InTime(before + [open], now) && open.closedAt.None? && closed == open.(closedAt := closed.closedAt)
    requires closed.closedAt.Some?
    requires forall i :: 0 <= i < |before| ==> before[i].closedAt.Some?
    requires cutoff <= later
    ensures
      var t := Trimmed(before + [open], cutoff);
      |t| >= 1 && Trimmed(t[|t| - 1 := closed], later) == Trimmed(before + [closed], later)
  {
    var p, q := Kept(cutoff), Kept(later);
    FilterNext(before, open, p);
    LastReplaced(MAX_INCIDENTS, Filter(before, p), open, closed);
    ClosedRising(before, open, closed, cutoff, later, now);
    TrimReplaced(MAX_INCIDENTS, before, closed, p, q);
  }

  lemma {:induction false} ClosedRising(before: seq<Incident>, open: Incident, closed: Incident, cutoff: int,
          later: int, now: int)
    requires InTime(before + [open], now) && closed.openedAt == open.openedAt && closed.closedAt.Some?
    requires forall i :: 0 <= i < |before| ==> before[i].closedAt.Some?
    ensures Rising(Filter(before, Kept(cutoff)) + [closed], Kept(later))
  {
    PrefixInTime(before, open, now);
    KeptRising(before, cutoff, now);
    var k := FilterSuffix(before, Kept(cutoff));
    var f := before[k..] + [closed];
    forall i | 0 <= i < |f| ensures f[i].closedAt.Some? && f[i].openedAt == (before + [open])[k + i].openedAt {}
  }

  lemma {:induction false} PrefixInTime(before: seq<Incident>, last: Incident, now: int)
    requires InTime(before + [last], now)
    ensures InTime(before, now) && forall i :: 0 <= i < |before| ==> before[i].closedAt.Some?
  {
    var all := before + [last];
    assert forall i :: 0 <= i < |before| ==> all[i] == before[i];
  }

  /** A check on the trimmed list gives what a check on the full list gives, once both are trimmed. */
  lemma {:induction false} TouchTrimmed(incidents: seq<Incident>, failures: nat, x: Sample, cutoff: int, now: int)
    requires InTime(incidents, now) && now <= x.checkedAt && cutoff <= x.checkedAt - RETENTION
    ensures
      Trimmed(Touched(Trimmed(incidents, cutoff), failures, x), x.checkedAt - RETENTION) ==
      Trimmed(Touched(incidents, failures, x), x.checkedAt - RETENTION)
  {
    var later := x.checkedAt - RETENTION;
    var p, q := Kept(cutoff), Kept(later);
    var t := Trimmed(incidents, cutoff);
    KeptIn(incidents, cutoff, now);
    LastOpenIs(incidents);
    LastOpenIs(t);
    KeptRising(incidents, cutoff, now);
    KeptRising(incidents, later, now);
    if Open(incidents) && x.state.Ready? {
      var before, open := incidents[..|incidents| - 1], incidents[|incidents| - 1];
      assert incidents == before + [open];
      PrefixInTime(before, open, now);
      CloseTrimmed(before, open, open.(closedAt := Some(x.checkedAt)), cutoff, later, now);
      LastOfTrimmed(before, open, cutoff);
      assert Touched(incidents, failures, x) == before + [open.(closedAt := Some(x.checkedAt))];
    } else if !Open(incidents) && Fails(x) && failures >= 2 {
      var y := Incident(x.checkedAt, None, x.state);
      TrimAppended(MAX_INCIDENTS, incidents, y, p, q);
    } else {
      TrimTwice(MAX_INCIDENTS, incidents, p, q);
      LastTwice(MAX_INCIDENTS, Filter(incidents, q));
    }
  }

  lemma {:induction false} LastOfTrimmed(before: seq<Incident>, open: Incident, cutoff: int)
    requires open.closedAt.None?
    ensures var t := Trimmed(before + [open], cutoff); t != [] && t[|t| - 1] == open
  {
    FilterNext(before, open, Kept(cutoff));
  }

  lemma {:induction false} AllInTime(history: seq<Sample>)
    requires Ordered(history) && history != []
    ensures InTime(AllIncidents(history), history[|history| - 1].checkedAt)
  {
    var before, x := history[..|history| - 1], history[|history| - 1];
    if before == [] {
      TouchedInTime([], Streak(history), x, x.checkedAt);
    } else {
      AllInTime(before);
      TouchedInTime(AllIncidents(before), Streak(history), x, before[|before| - 1].checkedAt);
    }
  }

  function IncidentWindow(history: seq<Sample>): seq<Incident> {
    if history == [] then [] else Trimmed(AllIncidents(history), Cutoff(history))
  }

  lemma {:induction false} IncidentWindowNext(history: seq<Sample>, x: Sample)
    ensures IncidentWindow(history + [x])
         == Trimmed(Touched(AllIncidents(history), Streak(history + [x]), x), x.checkedAt - RETENTION)
  {
    AllNext(history, x);
    assert (history + [x])[|history|] == x;
  }

  lemma {:induction false} IncidentsNext(history: seq<Sample>, x: Sample)
    requires Ordered(history + [x])
    ensures IncidentsAfter(IncidentWindow(history), Streak(history + [x]), x) == IncidentWindow(history + [x])
  {
    OrderedPrefix(history, x);
    IncidentWindowNext(history, x);
    if history != [] {
      AllInTime(history);
      TouchTrimmed(AllIncidents(history), Streak(history + [x]), x, Cutoff(history), history[|history| - 1].checkedAt);
    }
  }

  /** With a clock that does not go back, the stored incidents are the last of all incidents of the
      history that are open or young enough. */
  lemma {:induction false} IncidentsExact(history: seq<Sample>)
    requires Ordered(history)
    ensures IncidentsBefore(Fold(history)) == IncidentWindow(history)
  {
    if history != [] {
      var before, x := history[..|history| - 1], history[|history| - 1];
      assert history == before + [x];
      OrderedPrefix(before, x);
      RecordTells(before);
      StreakNext(before, x);
      IncidentsExact(before);
      IncidentsNext(before, x);
    }
  }
}
