/** The rolling record of a Tahto node: tahto-monitor.js keeps a window of samples and a list of
    incidents, and sees only what the previous check left. */
module Monitor {
  import opened Options
  import opened Lists

  const RETENTION := 604800000
  const MAX_SAMPLES := 2016
  const MAX_INCIDENTS := 256

  datatype NodeState = Ready | NotReady | Degraded | Unreachable

  /** Times are milliseconds. */
  datatype Sample = Sample(origin: string, checkedAt: int, latency: nat, state: NodeState)

  datatype Incident = Incident(openedAt: int, closedAt: Option<int>, state: NodeState)

  datatype Summary = Summary(latest: Sample, failures: nat, samples: seq<Sample>, incidents: seq<Incident>)

  // ---------------------------------------------------------------- one check

  predicate Fails(s: Sample) {
    s.state.Degraded? || s.state.Unreachable?
  }

  /** The position of the last open incident, or -1. */
  function LastOpen(incidents: seq<Incident>): (i: int)
    ensures -1 <= i < |incidents|
  {
    if incidents == [] then -1
    else if incidents[|incidents| - 1].closedAt.None? then |incidents| - 1
    else LastOpen(incidents[..|incidents| - 1])
  }

  /** An incident opens at the second failure in a row, and closes when the node is ready. */
  function Touched(incidents: seq<Incident>, failures: nat, sample: Sample): seq<Incident> {
    var open := LastOpen(incidents);
    if Fails(sample) && failures >= 2 && open < 0 then incidents + [Incident(sample.checkedAt, None, sample.state)]
    else if sample.state.Ready? && open >= 0
      then incidents[open := incidents[open].(closedAt := Some(sample.checkedAt))]
    else incidents
  }

  function Since(cutoff: int): Sample -> bool {
    (s: Sample) => s.checkedAt >= cutoff
  }

  function Kept(cutoff: int): Incident -> bool {
    (i: Incident) => i.openedAt >= cutoff || i.closedAt.None?
  }

  function SamplesBefore(previous: Option<Summary>): seq<Sample> {
    match previous case None => [] case Some(p) => p.samples
  }

  function IncidentsBefore(previous: Option<Summary>): seq<Incident> {
    match previous case None => [] case Some(p) => p.incidents
  }

  function FailuresBefore(previous: Option<Summary>): nat {
    match previous case None => 0 case Some(p) => p.failures
  }

  function SamplesAfter(samples: seq<Sample>, sample: Sample): seq<Sample> {
    Last(MAX_SAMPLES, Filter(samples + [sample], Since(sample.checkedAt - RETENTION)))
  }

  function IncidentsAfter(incidents: seq<Incident>, failures: nat, sample: Sample): seq<Incident> {
    Last(MAX_INCIDENTS, Filter(Touched(incidents, failures, sample), Kept(sample.checkedAt - RETENTION)))
  }

  function Applied(previous: Option<Summary>, sample: Sample): Summary {
    var failures := if Fails(sample) then FailuresBefore(previous) + 1 else 0;
    Summary(sample, failures,
            SamplesAfter(SamplesBefore(previous), sample), IncidentsAfter(IncidentsBefore(previous), failures, sample))
  }

  method FindLastOpen(incidents: seq<Incident>) returns (open: int)
    ensures open == LastOpen(incidents)
  {
    open := |incidents| - 1;
    assert incidents[..|incidents|] == incidents;
    while open >= 0
      invariant -1 <= open < |incidents| && LastOpen(incidents) == LastOpen(incidents[..open + 1])
    {
      assert incidents[..open + 1][..open] == incidents[..open];
      if incidents[open].closedAt.None? {
        return;
      }
      open := open - 1;
    }
  }

  /** The check works on a copy of the incidents, to which it appends or in which it closes one. */
  method ApplySample(previous: Option<Summary>, sample: Sample) returns (next: Summary)
    ensures next == Applied(previous, sample)
  {
    var cutoff := sample.checkedAt - RETENTION;
    var samples := FilterList(SamplesBefore(previous) + [sample], Since(cutoff));
    var failures := if Fails(sample) then FailuresBefore(previous) + 1 else 0;
    var incidents := IncidentsBefore(previous);
    var open := FindLastOpen(incidents);
    if Fails(sample) && failures >= 2 && open < 0 {
      incidents := incidents + [Incident(sample.checkedAt, None, sample.state)];
    } else if sample.state.Ready? && open >= 0 {
      incidents := incidents[open := incidents[open].(closedAt := Some(sample.checkedAt))];
    }
    var recent := FilterList(incidents, Kept(cutoff));
    next := Summary(sample, failures, Last(MAX_SAMPLES, samples), Last(MAX_INCIDENTS, recent));
  }

  // ---------------------------------------------------------------- the stored records

  /** What has been stored after these checks of one origin. */
  function Fold(history: seq<Sample>): Option<Summary> {
    if history == [] then None else Some(Applied(Fold(history[..|history| - 1]), history[|history| - 1]))
  }

  function OfOrigin(origin: string): Sample -> bool {
    (s: Sample) => s.origin == origin
  }

  lemma {:induction false} FoldNext(history: seq<Sample>, x: Sample)
    ensures Fold(history + [x]) == Some(Applied(Fold(history), x))
  {
    assert (history + [x])[..|history|] == history;
  }

  /** What the samples of one origin come to. */
  function Reading(history: seq<Sample>, origin: string): Option<Summary> {
    Fold(Filter(history, OfOrigin(origin)))
  }

  lemma {:induction false} ReadingNext(history: seq<Sample>, x: Sample, origin: string)
    ensures Reading(history + [x], origin) ==
      if x.origin == origin then Some(Applied(Reading(history, origin), x)) else Reading(history, origin)
  {
    FilterNext(history, x, OfOrigin(origin));
    FoldNext(Filter(history, OfOrigin(origin)), x);
  }

  function StoredFor(records: map<string, Summary>, origin: string): Option<Summary> {
    if origin in records then Some(records[origin]) else None
  }

  ghost predicate Holds(records: map<string, Summary>, history: seq<Sample>) {
    forall origin :: StoredFor(records, origin) == Reading(history, origin)
  }

  lemma {:induction false} HoldsNext(records: map<string, Summary>, history: seq<Sample>, x: Sample)
    requires Holds(records, history)
    ensures Holds(records[x.origin := Applied(StoredFor(records, x.origin), x)], history + [x])
  {
    var more := records[x.origin := Applied(StoredFor(records, x.origin), x)];
    forall origin ensures StoredFor(more, origin) == Reading(history + [x], origin) {
      ReadingNext(history, x, origin);
      assert StoredFor(records, origin) == Reading(history, origin);
    }
  }

  /** The monitor rewrites the record of the origin that a sample is from. */
  class MonitorRecords {
    var records: map<string, Summary>
    ghost var history: seq<Sample>

    /** Each origin's record is the fold of that origin's samples. */
    ghost predicate Valid()
      reads this
    {
      Holds(records, history)
    }

    constructor ()
      ensures Valid() && records == map[] && history == []
    {
      records, history := map[], [];
    }

    method Record(sample: Sample) returns (next: Summary)
      requires Valid()
      modifies this
      ensures Valid() && history == old(history) + [sample]
      ensures Some(next) == Reading(history, sample.origin) && records == old(records)[sample.origin := next]
    {
      var previous := StoredFor(records, sample.origin);
      next := ApplySample(previous, sample);
      HoldsNext(records, history, sample);
      records := records[sample.origin := next];
      history := history + [sample];
      assert StoredFor(records, sample.origin) == Reading(history, sample.origin);
    }
  }

  // ---------------------------------------------------------------- incidents, declaratively

  predicate FailsAt(history: seq<Sample>, i: int) {
    0 <= i < |history| && Fails(history[i])
  }

  /** Samples i - 1 and i both failed, and the node has not been ready since. */
  predicate Onset(history: seq<Sample>, i: int) {
    FailsAt(history, i - 1) && FailsAt(history, i) && forall k :: i < k < |history| ==> !history[k].state.Ready?
  }

  /** The node is down: two adjacent samples failed with no ready sample after the second. */
  ghost predicate Down(history: seq<Sample>) {
    exists i :: Onset(history, i)
  }

  /** The first of the samples at which the present trouble shows. */
  predicate FirstOnset(history: seq<Sample>, i: int) {
    Onset(history, i) && forall k :: 0 <= k < i ==> !Onset(history, k)
  }

  /** The number of failures in a row at the end. */
  function Streak(history: seq<Sample>): nat {
    if history == [] || !Fails(history[|history| - 1]) then 0 else Streak(history[..|history| - 1]) + 1
  }

  lemma {:induction false} StreakOfTwo(history: seq<Sample>)
    ensures Streak(history) >= 2 <==>
      |history| >= 2 && FailsAt(history, |history| - 1) && FailsAt(history, |history| - 2)
  {
    if history != [] && Fails(history[|history| - 1]) {
      var before := history[..|history| - 1];
      if before != [] { assert before[|before| - 1] == history[|history| - 2]; }
    }
  }

  /** The incident opened at sample i, the first sign of trouble, and closed at sample j. */
  predicate Spans(incident: Incident, history: seq<Sample>, i: int, j: int) {
    && 0 <= j < |history| && history[j].state.Ready? && FirstOnset(history[..j], i)
    && incident == Incident(history[i].checkedAt, Some(history[j].checkedAt), history[i].state)
  }

  /** A closed incident lasted from the first sign of some trouble to the first ready sample after. */
  ghost predicate Explained(incident: Incident, history: seq<Sample>) {
    incident.closedAt.Some? ==> exists i, j :: Spans(incident, history, i, j)
  }

  ghost predicate AllExplained(incidents: seq<Incident>, history: seq<Sample>) {
    forall k :: 0 <= k < |incidents| ==> Explained(incidents[k], history)
  }

  /** At most one incident is open, it is the last, and it is that of the present trouble. */
  ghost predicate Tells(incidents: seq<Incident>, history: seq<Sample>) {
    && (forall i :: 0 <= i < |incidents| - 1 ==> incidents[i].closedAt.Some?)
    && (Open(incidents) <==> Down(history))
    && (Open(incidents) ==> exists i ::
          && FirstOnset(history, i)
          && incidents[|incidents| - 1] == Incident(history[i].checkedAt, None, history[i].state))
  }

  predicate Open(incidents: seq<Incident>) {
    incidents != [] && incidents[|incidents| - 1].closedAt.None?
  }

  lemma {:induction false} LastOpenIs(incidents: seq<Incident>)
    requires forall i :: 0 <= i < |incidents| - 1 ==> incidents[i].closedAt.Some?
    ensures LastOpen(incidents) == if Open(incidents) then |incidents| - 1 else -1
  {
    if incidents != [] && !Open(incidents) {
      var before := incidents[..|incidents| - 1];
      assert before != [] ==> before[|before| - 1] == incidents[|incidents| - 2];
      LastOpenIs(before);
    }
  }

  lemma {:induction false} OnsetNext(history: seq<Sample>, x: Sample, i: int)
    requires i < |history|
    ensures Onset(history + [x], i) <==> Onset(history, i) && !x.state.Ready?
  {
    var more := history + [x];
    assert more[|history|] == x && forall k :: 0 <= k < |history| ==> more[k] == history[k];
    if Onset(more, i) {
      assert !more[|history|].state.Ready?;
      assert forall k :: i < k < |history| ==> more[k] == history[k];
    }
  }

  lemma {:induction false} OnsetLast(history: seq<Sample>, x: Sample)
    ensures Onset(history + [x], |history|) <==> Fails(x) && Streak(history) >= 1
  {
    var more := history + [x];
    assert more[|history|] == x && forall k :: 0 <= k < |history| ==> more[k] == history[k];
  }

  /** How one more sample changes whether the node is down, and since when. */
  lemma {:induction false} DownNext(history: seq<Sample>, x: Sample)
    ensures Down(history + [x]) <==> (Down(history) && !x.state.Ready?) || (Fails(x) && Streak(history) >= 1)
    ensures forall i :: FirstOnset(history, i) && !x.state.Ready? ==> FirstOnset(history + [x], i)
    ensures !Down(history) && Fails(x) && Streak(history) >= 1 ==> FirstOnset(history + [x], |history|)
  {
    var more := history + [x];
    forall i: int | i < |history| ensures Onset(more, i) <==> Onset(history, i) && !x.state.Ready? {
      OnsetNext(history, x, i);
    }
    OnsetLast(history, x);
    assert Down(more) <==> Onset(more, |history|) || (Down(history) && !x.state.Ready?) by {
      if Down(more) {
        var i :| Onset(more, i);
        assert i < |more|;
        assert i < |history| ==> Onset(history, i);
      }
      if Down(history) && !x.state.Ready? {
        var i :| Onset(history, i);
        assert Onset(more, i);
      }
    }
  }

  lemma {:induction false} StreakNext(history: seq<Sample>, x: Sample)
    ensures Streak(history + [x]) == if Fails(x) then Streak(history) + 1 else 0
  {
    assert (history + [x])[..|history|] == history;
  }

  lemma {:induction false} ExplainedLater(incident: Incident, history: seq<Sample>, x: Sample)
    requires Explained(incident, history)
    ensures Explained(incident, history + [x])
  {
    if incident.closedAt.Some? {
      var i, j :| Spans(incident, history, i, j);
      assert (history + [x])[..j] == history[..j];
      assert Spans(incident, history + [x], i, j);
    }
  }

  /** The incident that a ready sample closes is explained by it. */
  lemma {:induction false} ClosedExplained(incident: Incident, history: seq<Sample>, x: Sample, i: int)
    requires FirstOnset(history, i) && incident == Incident(history[i].checkedAt, None, history[i].state)
    requires x.state.Ready?
    ensures Explained(incident.(closedAt := Some(x.checkedAt)), history + [x])
  {
    assert (history + [x])[..|history|] == history && (history + [x])[i] == history[i];
    assert Spans(incident.(closedAt := Some(x.checkedAt)), history + [x], i, |history|);
  }

  lemma {:induction false} TouchedExplained(incidents: seq<Incident>, history: seq<Sample>, failures: nat, x: Sample)
    requires Tells(incidents, history) && AllExplained(incidents, history)
    ensures AllExplained(Touched(incidents, failures, x), history + [x])
  {
    LastOpenIs(incidents);
    forall k | 0 <= k < |incidents| ensures Explained(incidents[k], history + [x]) {
      ExplainedLater(incidents[k], history, x);
    }
    if Open(incidents) && x.state.Ready? {
      var i :| FirstOnset(history, i)
          && incidents[|incidents| - 1] == Incident(history[i].checkedAt, None, history[i].state);
      ClosedExplained(incidents[|incidents| - 1], history, x, i);
    }
  }

  lemma {:induction false} TrimExplained(incidents: seq<Incident>, history: seq<Sample>, p: Incident -> bool)
    requires AllExplained(incidents, history)
    ensures AllExplained(Filter(incidents, p), history)
  {
    if incidents != [] {
      TrimExplained(incidents[..|incidents| - 1], history, p);
    }
  }

  /** One check keeps the list telling the truth. */
  lemma {:induction false} TouchedTells(incidents: seq<Incident>, history: seq<Sample>, x: Sample)
    requires Tells(incidents, history)
    ensures Tells(Touched(incidents, Streak(history + [x]), x), history + [x])
  {
    LastOpenIs(incidents);
    DownNext(history, x);
    StreakNext(history, x);
    StreakOfTwo(history + [x]);
    var more := Touched(incidents, Streak(history + [x]), x);
    if Open(incidents) && !x.state.Ready? {
      var i :| FirstOnset(history, i)
          && incidents[|incidents| - 1] == Incident(history[i].checkedAt, None, history[i].state);
      assert FirstOnset(history + [x], i) && (history + [x])[i] == history[i];
    } else if !Open(incidents) && Fails(x) && Streak(history) >= 1 {
      assert FirstOnset(history + [x], |history|) && (history + [x])[|history|] == x;
    }
  }

  lemma {:induction false} FilterFrom<T>(s: seq<T>, p: T -> bool, q: T -> bool)
    requires forall i :: 0 <= i < |s| ==> q(s[i])
    ensures forall i :: 0 <= i < |Filter(s, p)| ==> q(Filter(s, p)[i])
  {
    if s != [] { FilterFrom(s[..|s| - 1], p, q); }
  }

  /** Trimming never drops the open incident. */
  lemma {:induction false} TrimTells(incidents: seq<Incident>, history: seq<Sample>, cutoff: int)
    requires Tells(incidents, history)
    ensures Tells(Last(MAX_INCIDENTS, Filter(incidents, Kept(cutoff))), history)
  {
    var kept := Filter(incidents, Kept(cutoff));
    var closed := (i: Incident) => i.closedAt.Some?;
    if Open(incidents) {
      var before := incidents[..|incidents| - 1];
      FilterFrom(before, Kept(cutoff), closed);
      assert kept == Filter(before, Kept(cutoff)) + [incidents[|incidents| - 1]];
      assert forall i :: 0 <= i < |kept| - 1 ==> closed(kept[i]);
    } else {
      forall i | 0 <= i < |incidents| ensures closed(incidents[i]) {}
      FilterFrom(incidents, Kept(cutoff), closed);
      assert forall i :: 0 <= i < |kept| ==> closed(kept[i]);
    }
  }

  lemma {:induction false} AppliedTells(previous: Option<Summary>, history: seq<Sample>, x: Sample)
    requires FailuresBefore(previous) == Streak(history) && Tells(IncidentsBefore(previous), history)
    requires AllExplained(IncidentsBefore(previous), history)
    ensures Applied(previous, x).failures == Streak(history + [x])
    ensures Tells(Applied(previous, x).incidents, history + [x])
    ensures AllExplained(Applied(previous, x).incidents, history + [x])
  {
    StreakNext(history, x);
    var incidents := IncidentsBefore(previous);
    TouchedTells(incidents, history, x);
    TrimTells(Touched(incidents, Streak(history + [x]), x), history + [x], x.checkedAt - RETENTION);
    TouchedExplained(incidents, history, Streak(history + [x]), x);
    TrimExplained(Touched(incidents, Streak(history + [x]), x), history + [x], Kept(x.checkedAt - RETENTION));
  }

  /** After any checks at any times, the record tells the truth about the whole history: the failures
      in a row, whether, and since when, the node is down, and from when to when it was. */
  lemma {:induction false} RecordTells(history: seq<Sample>)
    ensures FailuresBefore(Fold(history)) == Streak(history) && Tells(IncidentsBefore(Fold(history)), history)
    ensures AllExplained(IncidentsBefore(Fold(history)), history)
  {
    if history == [] {
      assert forall i :: !Onset(history, i);
    } else {
      var before, x := history[..|history| - 1], history[|history| - 1];
      assert history == before + [x];
      RecordTells(before);
      AppliedTells(Fold(before), before, x);
    }
  }
}
