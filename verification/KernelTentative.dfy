/** Page effects that fail: when the state that a client goes back to still belongs to its revision, and
    a run in which it does not. */
module KernelTentative {
  import opened Options
  import opened Kernel
  import opened KernelInvariant
  import opened KernelClient
  import opened KernelRuns

  // ---------------------------------------------------------------- effects that see no snapshot

  /** No snapshot is taken. */
  predicate Quiet(v: View, e: Event) {
    e.Deliver? && HasSnapshot(e.message) ==> Receive(v, e) == v
  }

  predicate Ends(e: Event, place: nat) {
    e.EffectEnds? && e.index == place
  }

  /** Where the entry of an effect stands after an event: the end of an earlier effect moves it up. */
  function Moved(place: nat, e: Event): nat {
    if e.EffectEnds? && e.index < place then place - 1 else place
  }

  function PlaceAt(place: nat, events: seq<Event>, i: nat, k: nat): nat
    requires i <= k <= |events|
    decreases k
  {
    if k == i then place else Moved(PlaceAt(place, events, i, k - 1), events[k - 1])
  }

  lemma QuietStep(v: View, e: Event, place: nat)
    requires Quiet(v, e) && place < |v.saved| && !Ends(e, place)
    ensures Receive(v, e).globalRevision == v.globalRevision
    ensures Moved(place, e) < |Receive(v, e).saved| && Receive(v, e).saved[Moved(place, e)] == v.saved[place]
  {}

  /** From the i-th to the k-th event no snapshot is taken, and the effect at this place does not end. */
  ghost predicate QuietFrom(contextId: string, events: seq<Event>, i: nat, k: nat, place: nat) {
    i <= k <= |events| && forall m :: i <= m < k ==> QuietAt(contextId, events, i, m, place)
  }

  ghost predicate QuietAt(contextId: string, events: seq<Event>, i: nat, m: nat, place: nat)
    requires i <= m < |events|
  {
    Quiet(After(contextId, events, m), events[m]) && !Ends(events[m], PlaceAt(place, events, i, m))
  }

  /** So the revision stays, and so does the entry of the effect. */
  lemma {:induction false} QuietRevision(contextId: string, events: seq<Event>, i: nat, k: nat, place: nat)
    requires QuietFrom(contextId, events, i, k, place) && place < |After(contextId, events, i).saved|
    ensures After(contextId, events, k).globalRevision == After(contextId, events, i).globalRevision
    ensures PlaceAt(place, events, i, k) < |After(contextId, events, k).saved|
    ensures After(contextId, events, k).saved[PlaceAt(place, events, i, k)] == After(contextId, events, i).saved[place]
    decreases k
  {
    if i < k {
      QuietRevision(contextId, events, i, k - 1, place);
      assert QuietAt(contextId, events, i, k - 1, place);
      AfterNext(contextId, events, k - 1);
      QuietStep(After(contextId, events, k - 1), events[k - 1], PlaceAt(place, events, i, k - 1));
    }
  }

  /** An effect that fails at the revision at which it began leaves the client coherent. */
  lemma SameRevisionRestores(v: View, e: Event, written: seq<Global>)
    requires SavedCoherent(v, written) && e.EffectEnds? && e.failed && e.index < |v.saved|
    requires v.saved[e.index].globalRevision == v.globalRevision
    ensures Restores(v, e, written)
  {
    var back := v.saved[e.index];
    if back.state.Some? && !back.tentative {
      assert Approves(written, back.globalRevision, back.state.value.installed);
    }
  }

  /** The entry of an effect that begins. */
  lemma Begins(contextId: string, events: seq<Event>, tentative: Session, i: nat)
    requires i < |events| && events[i] == Deliver(RunEffect(contextId, tentative))
    ensures var v, u := After(contextId, events, i), After(contextId, events, i + 1);
      && u.globalRevision == v.globalRevision
      && u.saved == v.saved + [Saved(v.state, v.globalRevision, v.tentative)]
  {
    AfterNext(contextId, events, i);
    ContextStays(contextId, events, i);
  }

  /** An effect begins at event i and fails at event j. If no snapshot was taken in between, whatever
      other effects began or ended, a client that was coherent until then stays so. */
  lemma QuietRestores(contextId: string, events: seq<Event>, tentative: Session, i: nat, j: nat, written: seq<Global>)
    requires i < j < |events| && events[i] == Deliver(RunEffect(contextId, tentative))
    requires QuietFrom(contextId, events, i + 1, j, |After(contextId, events, i).saved|)
    requires events[j] == EffectEnds(PlaceAt(|After(contextId, events, i).saved|, events, i + 1, j), true)
    requires CoherentThrough(contextId, events, written, j)
    ensures Restores(After(contextId, events, j), events[j], written)
  {
    var place := |After(contextId, events, i).saved|;
    Begins(contextId, events, tentative, i);
    QuietRevision(contextId, events, i + 1, j, place);
    SavedThrough(contextId, events, written, j);
    SameRevisionRestores(After(contextId, events, j), events[j], written);
  }

  lemma {:induction false} ContextStays(contextId: string, events: seq<Event>, n: nat)
    requires n <= |events|
    ensures After(contextId, events, n).contextId == contextId
  {
    if n > 0 {
      ContextStays(contextId, events, n - 1);
      AfterNext(contextId, events, n - 1);
    }
  }

  // ---------------------------------------------------------------- an effect that sees another page's commit

  /** A page attaches, runs an effect, hears of the app that another page has installed meanwhile, and
      then sees its effect fail. */
  const lateFailure: seq<Event> :=
    [Deliver(fromPage[0]), Deliver(fromPage[1]), Deliver(Update(announced)), EffectEnds(0, true)]

  lemma LateFailureBegins()
    ensures After("page", lateFailure, 2) == View("page", Some(opening), 0, 0, [Saved(Some(held), 0, false)], true)
  {
    AfterNext("page", lateFailure, 0);
    AfterNext("page", lateFailure, 1);
    assert After("page", lateFailure, 0) == Start("page");
    assert After("page", lateFailure, 1) == View("page", Some(held), 0, 0, [], false);
  }

  lemma LateFailureView()
    ensures After("page", lateFailure, 3) == View("page", Some(Session(newer.installed, None, None, "surface")), 1, 0,
                                                  [Saved(Some(held), 0, false)], true)
    ensures After("page", lateFailure, 4) == View("page", Some(held), 1, 0, [], false)
  {
    LateFailureBegins();
    AfterNext("page", lateFailure, 2);
    AfterNext("page", lateFailure, 3);
  }

  lemma LateFailureIncoherent(written: seq<Global>)
    requires written == [first, second]
    ensures !Coherent(After("page", lateFailure, 4), written)
    ensures !Restores(After("page", lateFailure, 3), lateFailure[3], written)
  {
    LateFailureView();
    assert first.installed != second.installed;
    forall installed ensures !(Approves(written, 1, installed) && Approves(written, 0, installed)) {
      if Approves(written, 1, installed) { assert installed == second.installed; }
      if Approves(written, 0, installed) { assert installed == first.installed; }
    }
  }

  /** There is a run of the host that sends these messages in this order. No effect is running any more,
      yet the page holds the approvals of revision 0 at revision 1, and refuses every ordinary snapshot
      of its context at these revisions. */
  lemma LateFailureStale() returns (states: seq<Host>, steps: seq<Step>)
    ensures IsRun(states, steps, noApps) && Initial(states[0])
    ensures Fifo(lateFailure, [0, 1, 2, 0], states[|steps|].sent)
    ensures
      var v, written := After("page", lateFailure, 4), states[|steps|].written;
      && v.saved == [] && !v.tentative && v.globalRevision == 1 && v.state == Some(held)
      && !Coherent(v, written) && !Restores(After("page", lateFailure, 3), lateFailure[3], written)
      && forall state :: Stale(v, Snapshot("page", 1, 0, state), false)
  {
    states, steps := OtherRuns();
    LateFailureView();
    LateFailureIncoherent(states[|steps|].written);
  }
}
