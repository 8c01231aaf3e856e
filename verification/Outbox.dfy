/** The outbox of signed records, drained in batches by any number of pages at once: no record is
    lost, whatever fails and in whatever order. */
module Outbox {
  import opened Json
  import opened Chain
  import opened Sorting
  import opened Sync

  /** A request of a page that synchronizes: the batch, whether the server has stored it, whether the
      page knows, and whether the page is still there. A request outlives its page. */
  datatype Session = Session(batch: seq<Entry>, stored: bool, confirmed: bool, open: bool)

  /** All records in chain order, the outbox by event hash, the server's records, and the requests. */
  datatype State = State(chain: seq<Entry>, outbox: map<Text, Entry>, server: set<Entry>, sessions: seq<Session>)

  datatype Step =
    | Record(entry: Entry)
    | ReadBatch(batch: seq<Entry>)
    | Arrive(session: nat)
    | Confirm(session: nat)
    | Fail(session: nat)
    | Delete(session: nat)
    | Crash

  function Hash(e: Entry): Text {
    e.inclusion.eventHash
  }

  /** The batch lists the outbox's records, each once, in any order. */
  ghost predicate Lists(batch: seq<Entry>, outbox: map<Text, Entry>) {
    && (forall i :: 0 <= i < |batch| ==> Hash(batch[i]) in outbox && outbox[Hash(batch[i])] == batch[i])
    && (forall i, j :: 0 <= i < j < |batch| ==> batch[i] != batch[j])
    && (forall k :: k in outbox ==> outbox[k] in batch)
  }

  function Hashes(batch: seq<Entry>): set<Text> {
    set e | e in batch :: Hash(e)
  }

  /** The chain starts at sequence 1 and is one segment. */
  ghost predicate ChainFromStart(chain: seq<Entry>) {
    Segment(chain) && (chain != [] ==> chain[0].inclusion.sequence == 1)
  }

  /** A record extends the chain; a batch is sent only if orderSyncEntries accepts it; it may arrive at
      any time, and more than once, also when its page has failed; it is deleted only once its page has
      come to know that the server has stored it. */
  ghost predicate Enabled(s: State, step: Step) {
    match step
    case Record(e) => ChainFromStart(s.chain + [e])
    case ReadBatch(batch) => Lists(batch, s.outbox) && Segment(SortBy(batch, bySequence))
    case Arrive(i) => i < |s.sessions|
    case Confirm(i) => i < |s.sessions| && s.sessions[i].open && s.sessions[i].stored
    case Fail(i) => i < |s.sessions|
    case Delete(i) => i < |s.sessions| && s.sessions[i].confirmed
    case Crash => true
  }

  /** The page is gone; what it has sent is not. */
  function Closed(session: Session): Session {
    session.(open := false)
  }

  ghost function Apply(s: State, step: Step): State
    requires Enabled(s, step)
  {
    match step
    case Record(e) => s.(chain := s.chain + [e], outbox := s.outbox[Hash(e) := e])
    case ReadBatch(batch) => s.(sessions := s.sessions + [Session(batch, false, false, true)])
    case Arrive(i) =>
      s.(server := s.server + (set e | e in s.sessions[i].batch),
         sessions := s.sessions[i := s.sessions[i].(stored := true)])
    case Confirm(i) => s.(sessions := s.sessions[i := s.sessions[i].(confirmed := true)])
    case Fail(i) => s.(sessions := s.sessions[i := Closed(s.sessions[i])])
    case Delete(i) => s.(outbox := s.outbox - Hashes(s.sessions[i].batch),
                         sessions := s.sessions[i := Closed(s.sessions[i])])
    case Crash => s.(sessions := seq(|s.sessions|, i requires 0 <= i < |s.sessions| => Closed(s.sessions[i])))
  }

  ghost predicate IsRun(states: seq<State>, steps: seq<Step>) {
    && |states| == |steps| + 1
    && forall i :: 0 <= i < |steps| ==> Enabled(states[i], steps[i]) && states[i + 1] == Apply(states[i], steps[i])
  }

  // ---------------------------------------------------------------- invariant

  /** The outbox holds just the records from position d of the chain on. */
  ghost predicate Suffix(chain: seq<Entry>, outbox: map<Text, Entry>, d: nat) {
    && d <= |chain|
    && (forall i :: d <= i < |chain| ==> Hash(chain[i]) in outbox && outbox[Hash(chain[i])] == chain[i])
    && (forall k :: k in outbox ==> exists i :: d <= i < |chain| && Hash(chain[i]) == k)
  }

  /** The batch lists the records of the chain between two positions, the first at most d. */
  ghost predicate Slice(chain: seq<Entry>, batch: seq<Entry>, d: nat) {
    exists a, b :: SliceAt(chain, batch, d, a, b)
  }

  ghost predicate SliceAt(chain: seq<Entry>, batch: seq<Entry>, d: nat, a: nat, b: nat) {
    a <= d && a <= b <= |chain| && forall e :: e in batch <==> e in chain[a..b]
  }

  ghost predicate SessionKept(chain: seq<Entry>, server: set<Entry>, session: Session, d: nat) {
    && Slice(chain, session.batch, d)
    && (session.confirmed ==> session.stored)
    && (session.stored ==> forall e :: e in session.batch ==> e in server)
  }

  ghost predicate SessionsKept(s: State, d: nat) {
    forall i :: 0 <= i < |s.sessions| ==> SessionKept(s.chain, s.server, s.sessions[i], d)
  }

  ghost predicate Delivered(s: State, d: nat) {
    && ChainFromStart(s.chain) && Suffix(s.chain, s.outbox, d)
    && forall i :: 0 <= i < d ==> s.chain[i] in s.server
  }

  /** No request is under way, and what is not queued has been delivered: a new profile, one whose
      whole chain a migration has just queued, or what an earlier run left behind. */
  ghost predicate Initial(s: State) {
    s.sessions == [] && exists d :: Delivered(s, d)
  }

  ghost predicate Kept(s: State, d: nat) {
    Delivered(s, d) && SessionsKept(s, d)
  }

  lemma SliceKept(chain: seq<Entry>, batch: seq<Entry>, d: nat, e: Entry, d': nat)
    requires Slice(chain, batch, d) && d <= d'
    ensures Slice(chain + [e], batch, d')
  {
    var a: nat, b: nat :| SliceAt(chain, batch, d, a, b);
    assert (chain + [e])[a..b] == chain[a..b];
    assert SliceAt(chain + [e], batch, d', a, b);
  }

  lemma SliceLater(chain: seq<Entry>, batch: seq<Entry>, d: nat, d': nat)
    requires Slice(chain, batch, d) && d <= d'
    ensures Slice(chain, batch, d')
  {
    var a: nat, b: nat :| SliceAt(chain, batch, d, a, b);
    assert SliceAt(chain, batch, d', a, b);
  }

  /** Where the outbox starts after a batch has been deleted. */
  lemma DeletedSuffix(s: State, batch: seq<Entry>, d: nat) returns (d': nat)
    requires ChainFromStart(s.chain) && Suffix(s.chain, s.outbox, d) && Slice(s.chain, batch, d)
    requires forall i :: 0 <= i < d ==> s.chain[i] in s.server
    requires forall e :: e in batch ==> e in s.server
    ensures d <= d' && Suffix(s.chain, s.outbox - Hashes(batch), d')
    ensures forall i :: 0 <= i < d' ==> s.chain[i] in s.server
  {
    var a: nat, b: nat :| SliceAt(s.chain, batch, d, a, b);
    d' := if b <= d then d else b;
    forall i | a <= i < b ensures s.chain[i] in batch && Hash(s.chain[i]) in Hashes(batch) {
      assert s.chain[a..b][i - a] == s.chain[i];
    }
    forall i | d' <= i < |s.chain| ensures Hash(s.chain[i]) !in Hashes(batch) {
      DeletedNotLater(s.chain, batch, d, a, b, i);
    }
  }

  lemma DeletedNotLater(chain: seq<Entry>, batch: seq<Entry>, d: nat, a: nat, b: nat, i: nat)
    requires Segment(chain) && SliceAt(chain, batch, d, a, b) && b <= i < |chain|
    ensures Hash(chain[i]) !in Hashes(batch)
  {
    forall e | e in batch ensures Hash(e) != Hash(chain[i]) {
      assert e in chain[a..b];
      var k :| 0 <= k < b - a && chain[a..b][k] == e;
      assert chain[a + k] == e;
    }
  }

  lemma SuffixAppend(chain: seq<Entry>, outbox: map<Text, Entry>, d: nat, e: Entry)
    requires Suffix(chain, outbox, d) && Segment(chain + [e])
    ensures Suffix(chain + [e], outbox[Hash(e) := e], d)
  {
    var longer, n := chain + [e], |chain|;
    var fuller := outbox[Hash(e) := e];
    assert longer[n] == e;
    forall i | d <= i < |longer| ensures Hash(longer[i]) in fuller && fuller[Hash(longer[i])] == longer[i] {
      if i < n { assert longer[i] == chain[i] && Hash(longer[i]) != Hash(longer[n]); }
    }
    forall k | k in fuller ensures exists i :: d <= i < |longer| && Hash(longer[i]) == k {
      if k == Hash(e) {
        assert Hash(longer[n]) == k;
      } else {
        var i :| d <= i < n && Hash(chain[i]) == k;
        assert Hash(longer[i]) == k;
      }
    }
  }

  lemma RecordKept(s: State, e: Entry, d: nat)
    requires Kept(s, d) && Enabled(s, Record(e))
    ensures Kept(Apply(s, Record(e)), d)
  {
    SuffixAppend(s.chain, s.outbox, d, e);
    var t := Apply(s, Record(e));
    forall i | 0 <= i < |t.sessions| ensures SessionKept(t.chain, t.server, t.sessions[i], d) {
      assert SessionKept(s.chain, s.server, s.sessions[i], d);
      SliceKept(s.chain, s.sessions[i].batch, d, e, d);
    }
  }

  lemma ListsSuffix(s: State, batch: seq<Entry>, d: nat)
    requires Suffix(s.chain, s.outbox, d) && Lists(batch, s.outbox)
    ensures SliceAt(s.chain, batch, d, d, |s.chain|)
  {
    forall e ensures e in batch <==> e in s.chain[d..|s.chain|] {
      if e in batch {
        var i :| 0 <= i < |batch| && batch[i] == e;
        var k :| d <= k < |s.chain| && Hash(s.chain[k]) == Hash(e);
        assert s.chain[d..|s.chain|][k - d] == s.chain[k] == e;
      }
      if e in s.chain[d..|s.chain|] {
        var k :| 0 <= k < |s.chain| - d && s.chain[d..|s.chain|][k] == e;
        assert s.chain[d + k] == e && Hash(e) in s.outbox;
      }
    }
  }

  lemma ReadKept(s: State, batch: seq<Entry>, d: nat)
    requires Kept(s, d) && Enabled(s, ReadBatch(batch))
    ensures Kept(Apply(s, ReadBatch(batch)), d)
  {
    ListsSuffix(s, batch, d);
    assert SessionKept(s.chain, s.server, Session(batch, false, false, true), d);
  }

  lemma ArriveKept(s: State, i: nat, d: nat)
    requires Kept(s, d) && Enabled(s, Arrive(i))
    ensures Kept(Apply(s, Arrive(i)), d)
  {
    var t := Apply(s, Arrive(i));
    forall k | 0 <= k < |t.sessions| ensures SessionKept(t.chain, t.server, t.sessions[k], d) {
      assert SessionKept(s.chain, s.server, s.sessions[k], d);
    }
  }

  lemma ClosedKept(s: State, d: nat, sessions: seq<Session>)
    requires SessionsKept(s, d) && |sessions| == |s.sessions|
    requires forall i :: 0 <= i < |sessions| ==> sessions[i] == s.sessions[i] || sessions[i] == Closed(s.sessions[i])
    ensures SessionsKept(s.(sessions := sessions), d)
  {
    forall k | 0 <= k < |sessions| ensures SessionKept(s.chain, s.server, sessions[k], d) {
      assert SessionKept(s.chain, s.server, s.sessions[k], d);
    }
  }

  lemma SessionsLater(s: State, d: nat, d': nat)
    requires SessionsKept(s, d) && d <= d'
    ensures SessionsKept(s, d')
  {
    forall k | 0 <= k < |s.sessions| ensures SessionKept(s.chain, s.server, s.sessions[k], d') {
      assert SessionKept(s.chain, s.server, s.sessions[k], d);
      SliceLater(s.chain, s.sessions[k].batch, d, d');
    }
  }

  lemma DeleteKept(s: State, i: nat, d: nat) returns (d': nat)
    requires Kept(s, d) && Enabled(s, Delete(i))
    ensures d <= d' && Kept(Apply(s, Delete(i)), d')
  {
    assert SessionKept(s.chain, s.server, s.sessions[i], d);
    d' := DeletedSuffix(s, s.sessions[i].batch, d);
    SessionsLater(s, d, d');
    ClosedKept(s, d', Apply(s, Delete(i)).sessions);
  }

  lemma StepKept(s: State, step: Step, d: nat) returns (d': nat)
    requires Kept(s, d) && Enabled(s, step)
    ensures d <= d' && Kept(Apply(s, step), d')
  {
    d' := d;
    match step
    case Record(e) => RecordKept(s, e, d);
    case ReadBatch(batch) => ReadKept(s, batch, d);
    case Arrive(i) => ArriveKept(s, i, d);
    case Confirm(i) => assert SessionKept(s.chain, s.server, s.sessions[i], d);
    case Fail(i) => ClosedKept(s, d, Apply(s, step).sessions);
    case Delete(i) => d' := DeleteKept(s, i, d);
    case Crash => ClosedKept(s, d, Apply(s, step).sessions);
  }

  // ---------------------------------------------------------------- main results

  lemma {:induction false} RunKept(states: seq<State>, steps: seq<Step>, k: nat) returns (d: nat)
    requires IsRun(states, steps) && Initial(states[0]) && k < |states|
    ensures Kept(states[k], d)
  {
    if k == 0 {
      d :| Delivered(states[0], d);
    } else {
      var before := RunKept(states, steps, k - 1);
      d := StepKept(states[k - 1], steps[k - 1], before);
    }
  }

  /** After every interleaving of recording, reading, sending, deleting, failing and crashing, with
      requests that arrive after their page has gone or more than once, the outbox is a contiguous suffix of
      the chain and the server has all that is outside it. So no
      record is ever lost. */
  lemma NothingLost(states: seq<State>, steps: seq<Step>, k: nat)
    requires IsRun(states, steps) && Initial(states[0]) && k < |states|
    ensures exists d ::
      && Suffix(states[k].chain, states[k].outbox, d)
      && forall i :: 0 <= i < d ==> states[k].chain[i] in states[k].server
    ensures forall i :: 0 <= i < |states[k].chain| ==>
      Hash(states[k].chain[i]) in states[k].outbox || states[k].chain[i] in states[k].server
  {
    var d := RunKept(states, steps, k);
  }

  lemma {:induction false} DistinctCount(s: seq<Entry>, e: Entry)
    requires forall i, j :: 0 <= i < j < |s| ==> s[i] != s[j]
    ensures multiset(s)[e] == if e in s then 1 else 0
  {
    if s != [] {
      var rest, last := s[..|s| - 1], s[|s| - 1];
      SplitLast(s);
      DistinctCount(rest, e);
      assert e in s <==> e in rest || e == last;
      assert last !in rest;
    }
  }

  lemma SameElements(s: seq<Entry>, t: seq<Entry>)
    requires forall i, j :: 0 <= i < j < |s| ==> s[i] != s[j]
    requires forall i, j :: 0 <= i < j < |t| ==> t[i] != t[j]
    requires forall e :: e in s <==> e in t
    ensures multiset(s) == multiset(t)
  {
    forall e ensures multiset(s)[e] == multiset(t)[e] {
      DistinctCount(s, e);
      DistinctCount(t, e);
    }
  }

  /** Whatever order the store lists the outbox in, orderSyncEntries accepts the batch, and sends it
      as the stretch of the chain that the outbox holds. */
  lemma BatchAccepted(states: seq<State>, steps: seq<Step>, k: nat, batch: seq<Entry>)
    requires IsRun(states, steps) && Initial(states[0]) && k < |states|
    requires Lists(batch, states[k].outbox)
    ensures Segment(SortBy(batch, bySequence))
    ensures exists d :: 0 <= d <= |states[k].chain| && SortBy(batch, bySequence) == states[k].chain[d..]
  {
    var d := RunKept(states, steps, k);
    BatchIsSuffix(states[k], batch, d);
  }

  lemma BatchIsSuffix(s: State, batch: seq<Entry>, d: nat)
    requires Delivered(s, d) && Lists(batch, s.outbox)
    ensures Segment(SortBy(batch, bySequence)) && SortBy(batch, bySequence) == s.chain[d..]
  {
    ListsSuffix(s, batch, d);
    SegmentPart(s.chain, d);
    var part := s.chain[d..];
    assert s.chain[d..|s.chain|] == part;
    SortedSegment(part, batch);
  }

  lemma SortedSegment(part: seq<Entry>, batch: seq<Entry>)
    requires Segment(part) && (forall i, j :: 0 <= i < j < |batch| ==> batch[i] != batch[j])
    requires forall e :: e in batch <==> e in part
    ensures SortBy(batch, bySequence) == part
  {
    SegmentDistinct(part);
    SameElements(batch, part);
    SegmentStrict(part);
    SortUnique(part, batch, bySequence);
  }

  lemma SegmentDistinct(s: seq<Entry>)
    requires Segment(s)
    ensures forall i, j :: 0 <= i < j < |s| ==> s[i] != s[j]
  {
    forall i, j | 0 <= i < j < |s| ensures s[i] != s[j] {
      assert s[i].inclusion.eventHash != s[j].inclusion.eventHash;
    }
  }
}
