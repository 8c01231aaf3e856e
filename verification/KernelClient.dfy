/** The page client's cached snapshot, and its coherence with the durable envelopes. */
module KernelClient {
  import opened Options
  import opened Kernel
  import opened KernelInvariant

  // ---------------------------------------------------------------- the client

  /** What a page effect goes back to if it fails: the state before it, and for the record the global
      revision that this state stood at and whether it was itself tentative. */
  datatype Saved = Saved(state: Option<Session>, globalRevision: int, tentative: bool)

  /** What a page holds. `tentative`: the state is one that a page effect runs on, and no snapshot has
      replaced it since. `saved` has an entry for every effect still running. */
  datatype View = View(
    contextId: string, state: Option<Session>, globalRevision: int, contextRevision: int,
    saved: seq<Saved>, tentative: bool)

  datatype Event =
    | Deliver(message: Message)
    | EffectEnds(index: nat, failed: bool)

  function Take(v: View, snapshot: Snapshot): View {
    v.(state := Some(snapshot.state), globalRevision := snapshot.globalRevision,
       contextRevision := snapshot.contextRevision, tentative := false)
  }

  predicate Stale(v: View, snapshot: Snapshot, authoritative: bool) {
    || snapshot.globalRevision < v.globalRevision || snapshot.contextRevision < v.contextRevision
    || (v.state.Some? && snapshot.globalRevision == v.globalRevision
        && snapshot.contextRevision == v.contextRevision && !authoritative)
  }

  function Accept(v: View, snapshot: Snapshot, authoritative: bool): View {
    if snapshot.contextId != v.contextId || Stale(v, snapshot, authoritative) then v else Take(v, snapshot)
  }

  /** The part of another context's broadcast that concerns every page: the approvals. */
  function TakeApprovals(v: View, snapshot: Snapshot): View {
    if v.state.Some? && snapshot.globalRevision > v.globalRevision then
      var held := v.state.value;
      var removed :=
        held.active.Some? && held.active.value != "" && !HasApp(snapshot.state.installed, held.active.value);
      var state := Session(
        snapshot.state.installed,
        if removed then None else held.active,
        if removed && held.surfaceApp == held.active then None else held.surfaceApp,
        held.rest);
      v.(state := Some(state), globalRevision := snapshot.globalRevision)
    else v
  }

  function Receive(v: View, e: Event): View {
    match e
    case Deliver(Update(snapshot)) =>
      if snapshot.contextId == v.contextId then Accept(v, snapshot, false) else TakeApprovals(v, snapshot)
    case Deliver(Rollback(snapshot)) =>
      if snapshot.contextId == v.contextId then Take(v, snapshot) else TakeApprovals(v, snapshot)
    case Deliver(Reply(snapshot, authoritative)) => Accept(v, snapshot, authoritative)
    case Deliver(RunEffect(contextId, tentative)) =>
      if contextId == v.contextId
      then v.(state := Some(tentative), saved := v.saved + [Saved(v.state, v.globalRevision, v.tentative)],
              tentative := true)
      else v
    case EffectEnds(index, failed) =>
      if index >= |v.saved| then v
      else
        var rest := v.saved[..index] + v.saved[index + 1..];
        if failed then v.(state := v.saved[index].state, saved := rest, tentative := v.saved[index].tentative)
        else v.(saved := rest)
  }

  /** The client of kernel-client.js: three fields that messages overwrite. */
  class Client {
    const contextId: string
    var state: Option<Session>
    var globalRevision: int
    var contextRevision: int
    ghost var saved: seq<Saved>
    ghost var tentative: bool

    ghost function Seen(): View
      reads this
    {
      View(contextId, state, globalRevision, contextRevision, saved, tentative)
    }

    constructor (contextId: string)
      ensures Seen() == Start(contextId)
    {
      this.contextId := contextId;
      state, globalRevision, contextRevision := None, -1, -1;
      saved, tentative := [], false;
    }

    method AcceptSnapshot(snapshot: Snapshot, authoritative: bool) returns (accepted: bool)
      modifies this
      ensures Seen() == Accept(old(Seen()), snapshot, authoritative)
      ensures accepted <==> snapshot.contextId == contextId && !Stale(old(Seen()), snapshot, authoritative)
    {
      if snapshot.contextId != contextId {
        return false;
      }
      if snapshot.globalRevision < globalRevision || snapshot.contextRevision < contextRevision {
        return false;
      }
      if state.Some? && snapshot.globalRevision == globalRevision
         && snapshot.contextRevision == contextRevision && !authoritative {
        return false;
      }
      state := Some(snapshot.state);
      globalRevision := snapshot.globalRevision;
      contextRevision := snapshot.contextRevision;
      tentative := false;
      return true;
    }

    method HandleUpdate(snapshot: Snapshot, rollback: bool)
      modifies this
      ensures Seen() == Receive(old(Seen()), Deliver(if rollback then Rollback(snapshot) else Update(snapshot)))
    {
      if snapshot.contextId == contextId {
        if rollback {
          state := Some(snapshot.state);
          globalRevision := snapshot.globalRevision;
          contextRevision := snapshot.contextRevision;
          tentative := false;
        } else {
          var accepted := AcceptSnapshot(snapshot, false);
        }
      } else if snapshot.globalRevision > globalRevision && state.Some? {
        var active := state.value.active;
        var removed := active.Some? && active.value != "" && !HasApp(snapshot.state.installed, active.value);
        var surfaceRemoved := removed && state.value.surfaceApp == active;
        state := Some(state.value.(
          installed := snapshot.state.installed,
          active := if removed then None else active,
          surfaceApp := if surfaceRemoved then None else state.value.surfaceApp));
        globalRevision := snapshot.globalRevision;
      }
    }

    /** The part of an effect before its await: the tentative state is set, and the state before it is
        kept for the case that the effect fails. */
    method BeginEffect(message: Message) returns (previous: Option<Session>)
      requires message.RunEffect?
      modifies this
      ensures Seen() == Receive(old(Seen()), Deliver(message))
      ensures previous == old(state)
      ensures message.contextId == contextId ==>
        saved == old(saved) + [Saved(previous, old(globalRevision), old(tentative))]
    {
      previous := state;
      if message.contextId == contextId {
        saved := saved + [Saved(state, globalRevision, tentative)];
        state := Some(message.tentative);
        tentative := true;
      }
    }

    /** The part after it: a failed effect puts back the state it has kept, whatever came meanwhile. */
    method EndEffect(previous: Option<Session>, ghost index: nat, failed: bool)
      requires index < |saved| && saved[index].state == previous
      modifies this
      ensures Seen() == Receive(old(Seen()), EffectEnds(index, failed))
    {
      if failed {
        state := previous;
        tentative := saved[index].tentative;
      }
      saved := saved[..index] + saved[index + 1..];
    }
  }

  function Start(contextId: string): View {
    View(contextId, None, -1, -1, [], false)
  }

  // ---------------------------------------------------------------- what the host sends

  predicate HasSnapshot(m: Message) {
    !m.RunEffect?
  }

  /** A stored envelope with this snapshot's revision and approvals. */
  ghost predicate Known(written: seq<Global>, snapshot: Snapshot) {
    exists i :: 0 <= i < |written| &&
      written[i].revision == snapshot.globalRevision && written[i].installed == snapshot.state.installed
  }

  ghost predicate AllKnown(sent: seq<Message>, written: seq<Global>) {
    forall i :: 0 <= i < |sent| && HasSnapshot(sent[i]) ==> Known(written, sent[i].snapshot)
  }

  /** No snapshot that was sent is ahead of the stores. */
  ghost predicate NoneAhead(sent: seq<Message>, d: Stores) {
    forall i :: 0 <= i < |sent| && HasSnapshot(sent[i]) ==>
      && d.global.Some? && sent[i].snapshot.globalRevision <= d.global.value.revision
      && sent[i].snapshot.contextId in d.contexts
      && sent[i].snapshot.contextRevision <= d.contexts[sent[i].snapshot.contextId].revision
  }

  /** Snapshots are sent in the order of their revisions. */
  ghost predicate InOrder(sent: seq<Message>) {
    forall i, j :: 0 <= i < j < |sent| && HasSnapshot(sent[i]) && HasSnapshot(sent[j]) ==>
      && sent[i].snapshot.globalRevision <= sent[j].snapshot.globalRevision
      && (sent[i].snapshot.contextId == sent[j].snapshot.contextId ==>
            sent[i].snapshot.contextRevision <= sent[j].snapshot.contextRevision)
  }

  ghost predicate SentKept(s: Host) {
    AllKnown(s.sent, s.written) && NoneAhead(s.sent, s.stores) && InOrder(s.sent)
  }

  /** The snapshot that a phase is about to send. */
  ghost predicate Current(s: Host, snapshot: Snapshot) {
    && s.stores.global.Some? && s.stores.global.value.revision == snapshot.globalRevision
    && s.stores.global.value.installed == snapshot.state.installed
    && snapshot.contextId in s.stores.contexts
    && s.stores.contexts[snapshot.contextId].revision == snapshot.contextRevision
  }

  /** Current snapshots may follow whatever was sent before. */
  lemma SendCurrent(s: Host, sent: seq<Message>)
    requires SentKept(s) && GlobalKept(s) && Keeps(s.sent, sent)
    requires forall i :: |s.sent| <= i < |sent| && HasSnapshot(sent[i]) ==> Current(s, sent[i].snapshot)
    ensures AllKnown(sent, s.written) && NoneAhead(sent, s.stores) && InOrder(sent)
  {
    forall i | |s.sent| <= i < |sent| && HasSnapshot(sent[i]) ensures Known(s.written, sent[i].snapshot) {
      assert s.written[|s.written| - 1] == s.stores.global.value;
    }
  }

  /** A step either sends current snapshots or moves the stores on, never both. */
  lemma SentStep(s: Host, step: Step, catalog: Catalog)
    requires PhaseKept(s) && Enabled(s, step, catalog) && !step.Commit? && !step.WriteGlobal? && !step.WriteContext?
    ensures
      var t := Apply(s, step, catalog);
      && t.written == s.written && t.stores.global == s.stores.global && t.stores.contexts == s.stores.contexts
      && Keeps(s.sent, t.sent)
      && forall i :: |s.sent| <= i < |t.sent| && HasSnapshot(t.sent[i]) ==> Current(s, t.sent[i].snapshot)
  {}

  lemma StoresMove(s: Host, step: Step, catalog: Catalog)
    requires PhaseKept(s) && ContextsKept(s) && Enabled(s, step, catalog)
    requires step.Commit? || step.WriteGlobal? || step.WriteContext?
    ensures
      var t := Apply(s, step, catalog);
      && t.sent == s.sent && Keeps(s.written, t.written)
      && (s.stores.global.Some? ==>
            t.stores.global.Some? && s.stores.global.value.revision <= t.stores.global.value.revision)
      && forall client :: client in s.stores.contexts ==>
           client in t.stores.contexts && s.stores.contexts[client].revision <= t.stores.contexts[client].revision
  {}

  lemma SentKeptStep(s: Host, step: Step, catalog: Catalog)
    requires SentKept(s) && Durable(s) && Enabled(s, step, catalog)
    ensures SentKept(Apply(s, step, catalog))
  {
    var t := Apply(s, step, catalog);
    if step.Commit? || step.WriteGlobal? || step.WriteContext? {
      StoresMove(s, step, catalog);
      forall i | 0 <= i < |s.sent| && HasSnapshot(s.sent[i]) ensures Known(t.written, s.sent[i].snapshot) {
        var k :| 0 <= k < |s.written| && s.written[k].revision == s.sent[i].snapshot.globalRevision
          && s.written[k].installed == s.sent[i].snapshot.state.installed;
        assert t.written[k] == s.written[k];
      }
    } else {
      SentStep(s, step, catalog);
      SendCurrent(s, t.sent);
    }
  }

  lemma {:induction false} RunSent(states: seq<Host>, steps: seq<Step>, catalog: Catalog, k: nat)
    requires IsRun(states, steps, catalog) && Initial(states[0]) && k < |states|
    ensures SentKept(states[k])
  {
    if k > 0 {
      RunSent(states, steps, catalog, k - 1);
      RunDurable(states, steps, catalog, k - 1);
      SentKeptStep(states[k - 1], steps[k - 1], catalog);
    }
  }

  // ---------------------------------------------------------------- coherence

  /** A stored envelope of this revision lists these approvals. */
  ghost predicate Approves(written: seq<Global>, revision: int, installed: seq<App>) {
    exists i :: 0 <= i < |written| && written[i].revision == revision && written[i].installed == installed
  }

  ghost predicate SameApprovals(written: seq<Global>, r: int, s: int) {
    exists installed :: Approves(written, r, installed) && Approves(written, s, installed)
  }

  /** A client whose state is not tentative holds just the approvals of the stored envelope that has
      its own global revision. */
  ghost predicate Coherent(v: View, written: seq<Global>) {
    v.state.Some? && !v.tentative ==> Approves(written, v.globalRevision, v.state.value.installed)
  }

  /** So does every state that an effect may go back to, at the revision it stood at. */
  ghost predicate SavedCoherent(v: View, written: seq<Global>) {
    forall i :: 0 <= i < |v.saved| && v.saved[i].state.Some? && !v.saved[i].tentative ==>
      Approves(written, v.saved[i].globalRevision, v.saved[i].state.value.installed)
  }

  /** A failed effect goes back to a state whose approvals are also those of the present revision. */
  ghost predicate Restores(v: View, e: Event, written: seq<Global>) {
    e.EffectEnds? && e.failed && e.index < |v.saved| && v.saved[e.index].state.Some? && !v.saved[e.index].tentative ==>
      SameApprovals(written, v.globalRevision, v.saved[e.index].globalRevision)
  }

  /** Events of messages that the host has sent, in any order, each any number of times or never. */
  predicate FromSent(e: Event, sent: seq<Message>) {
    e.Deliver? ==> e.message in sent
  }

  function ReceiveAll(v: View, events: seq<Event>): View {
    if events == [] then v else Receive(ReceiveAll(v, events[..|events| - 1]), events[|events| - 1])
  }

  lemma ApprovesOne(written: seq<Global>, revision: int, a: seq<App>, b: seq<App>)
    requires WrittenKept(written) && Approves(written, revision, a) && Approves(written, revision, b)
    ensures a == b
  {
    var i :| 0 <= i < |written| && written[i].revision == revision && written[i].installed == a;
    var j :| 0 <= j < |written| && written[j].revision == revision && written[j].installed == b;
    if i < j {
      assert written[i].installed == written[j].installed;
    } else if j < i {
      assert written[j].installed == written[i].installed;
    }
  }

  /** After a failed effect the client is coherent exactly when the approvals of the envelope at its
      present revision are those at the revision of the state it went back to. */
  lemma FailedEffectExactly(v: View, e: Event, written: seq<Global>)
    requires WrittenKept(written) && SavedCoherent(v, written) && e.EffectEnds? && e.failed && e.index < |v.saved|
    ensures Coherent(Receive(v, e), written) <==> Restores(v, e, written)
  {
    var back := v.saved[e.index];
    if back.state.Some? && !back.tentative {
      var installed := back.state.value.installed;
      assert Approves(written, back.globalRevision, installed);
      if SameApprovals(written, v.globalRevision, back.globalRevision) {
        var other :| Approves(written, v.globalRevision, other) && Approves(written, back.globalRevision, other);
        ApprovesOne(written, back.globalRevision, other, installed);
      }
    }
  }

  /** Every other event keeps a client coherent. */
  lemma CoherentStep(v: View, e: Event, sent: seq<Message>, written: seq<Global>)
    requires Coherent(v, written) && FromSent(e, sent) && AllKnown(sent, written) && !(e.EffectEnds? && e.failed)
    ensures Coherent(Receive(v, e), written)
  {
    if e.Deliver? && HasSnapshot(e.message) {
      var i :| 0 <= i < |sent| && sent[i] == e.message;
      assert Known(written, sent[i].snapshot);
    }
  }

  lemma SavedStep(v: View, e: Event, written: seq<Global>)
    requires Coherent(v, written) && SavedCoherent(v, written)
    ensures SavedCoherent(Receive(v, e), written)
  {}

  /** The client after the first n events. */
  function After(contextId: string, events: seq<Event>, n: nat): View
    requires n <= |events|
  {
    ReceiveAll(Start(contextId), events[..n])
  }

  lemma AfterNext(contextId: string, events: seq<Event>, n: nat)
    requires n < |events|
    ensures After(contextId, events, n + 1) == Receive(After(contextId, events, n), events[n])
  {
    assert events[..n + 1][..n] == events[..n];
  }

  ghost predicate CoherentThrough(contextId: string, events: seq<Event>, written: seq<Global>, n: nat)
    requires n <= |events|
  {
    forall k :: 0 <= k <= n ==> Coherent(After(contextId, events, k), written)
  }

  lemma {:induction false} SavedThrough(contextId: string, events: seq<Event>, written: seq<Global>, n: nat)
    requires n <= |events| && forall k :: 0 <= k < n ==> Coherent(After(contextId, events, k), written)
    ensures SavedCoherent(After(contextId, events, n), written)
  {
    if n > 0 {
      SavedThrough(contextId, events, written, n - 1);
      AfterNext(contextId, events, n - 1);
      SavedStep(After(contextId, events, n - 1), events[n - 1], written);
    }
  }

  lemma {:induction false} CoherentWhileRestored(contextId: string, events: seq<Event>, sent: seq<Message>,
                                                 written: seq<Global>, n: nat)
    requires n <= |events| && AllKnown(sent, written) && WrittenKept(written)
    requires forall i :: 0 <= i < |events| ==> FromSent(events[i], sent)
    requires forall k :: 0 <= k < n ==> Restores(After(contextId, events, k), events[k], written)
    ensures CoherentThrough(contextId, events, written, n)
  {
    if n > 0 {
      CoherentWhileRestored(contextId, events, sent, written, n - 1);
      AfterNext(contextId, events, n - 1);
      CoherentNext(contextId, events, sent, written, n - 1);
    }
  }

  lemma {:induction false} CoherentNext(contextId: string, events: seq<Event>, sent: seq<Message>,
                                        written: seq<Global>, n: nat)
    requires n < |events| && AllKnown(sent, written) && WrittenKept(written) && FromSent(events[n], sent)
    requires CoherentThrough(contextId, events, written, n)
    ensures Coherent(After(contextId, events, n + 1), written) <==>
      Restores(After(contextId, events, n), events[n], written)
  {
    var v, e := After(contextId, events, n), events[n];
    AfterNext(contextId, events, n);
    SavedThrough(contextId, events, written, n);
    if e.EffectEnds? && e.failed && e.index < |v.saved| {
      FailedEffectExactly(v, e, written);
    } else if !(e.EffectEnds? && e.failed) {
      CoherentStep(v, e, sent, written);
    }
  }

  /** Under any order, loss or duplication of messages, and with page effects that succeed or fail at
      any time, a client is coherent with the run at every moment exactly when every failed effect goes
      back to a state whose approvals are those of the client's revision at that moment. */
  lemma CacheCoherent(states: seq<Host>, steps: seq<Step>, catalog: Catalog, contextId: string, events: seq<Event>)
    requires IsRun(states, steps, catalog) && Initial(states[0])
    requires forall i :: 0 <= i < |events| ==> FromSent(events[i], states[|steps|].sent)
    ensures
      var written := states[|steps|].written;
      CoherentThrough(contextId, events, written, |events|) <==>
        forall n :: 0 <= n < |events| ==> Restores(After(contextId, events, n), events[n], written)
  {
    var s := states[|steps|];
    RunSent(states, steps, catalog, |steps|);
    RunDurable(states, steps, catalog, |steps|);
    if forall n :: 0 <= n < |events| ==> Restores(After(contextId, events, n), events[n], s.written) {
      CoherentWhileRestored(contextId, events, s.sent, s.written, |events|);
    }
    if CoherentThrough(contextId, events, s.written, |events|) {
      forall n | 0 <= n < |events| ensures Restores(After(contextId, events, n), events[n], s.written) {
        CoherentNext(contextId, events, s.sent, s.written, n);
      }
    }
  }

  /** The approvals that a coherent client holds are determined by its revision alone. */
  lemma ApprovalsByRevision(states: seq<Host>, steps: seq<Step>, catalog: Catalog, v: View, i: nat)
    requires IsRun(states, steps, catalog) && Initial(states[0]) && Coherent(v, states[|steps|].written)
    requires v.state.Some? && !v.tentative
    requires i < |states[|steps|].written| && states[|steps|].written[i].revision == v.globalRevision
    ensures states[|steps|].written[i].installed == v.state.value.installed
  {
    var written := states[|steps|].written;
    RunDurable(states, steps, catalog, |steps|);
    assert Approves(written, v.globalRevision, written[i].installed);
    ApprovesOne(written, v.globalRevision, written[i].installed, v.state.value.installed);
  }

  // ---------------------------------------------------------------- first in, first out

  /** Deliveries in the order of sending: at[i] is the place in the log of the i-th message. Messages
      may be lost, and page effects may end at any time. */
  ghost predicate Fifo(events: seq<Event>, at: seq<nat>, sent: seq<Message>) {
    && |at| == |events|
    && (forall i :: 0 <= i < |events| && events[i].Deliver? ==> at[i] < |sent| && sent[at[i]] == events[i].message)
    && (forall i, j :: 0 <= i < j < |events| && events[i].Deliver? && events[j].Deliver? ==> at[i] < at[j])
  }

  /** The client is behind every message from `next` on. */
  ghost predicate Behind(v: View, sent: seq<Message>, next: nat) {
    forall k :: next <= k < |sent| && HasSnapshot(sent[k]) ==>
      && v.globalRevision <= sent[k].snapshot.globalRevision
      && (sent[k].snapshot.contextId == v.contextId ==> v.contextRevision <= sent[k].snapshot.contextRevision)
  }

  lemma FifoStep(v: View, sent: seq<Message>, next: nat, k: nat)
    requires InOrder(sent) && Behind(v, sent, next) && next <= k < |sent|
    ensures
      var u := Receive(v, Deliver(sent[k]));
      && Behind(u, sent, k + 1)
      && v.globalRevision <= u.globalRevision && v.contextRevision <= u.contextRevision
  {}

  /** One past the last delivery among the first n events. */
  function NextAt(events: seq<Event>, at: seq<nat>, n: nat): nat
    requires n <= |events| == |at|
  {
    if n == 0 then 0 else if events[n - 1].Deliver? then at[n - 1] + 1 else NextAt(events, at, n - 1)
  }

  lemma {:induction false} NextBefore(events: seq<Event>, at: seq<nat>, sent: seq<Message>, n: nat, m: nat)
    requires Fifo(events, at, sent) && n <= m < |events| && events[m].Deliver?
    ensures NextAt(events, at, n) <= at[m]
  {
    if n > 0 && !events[n - 1].Deliver? {
      NextBefore(events, at, sent, n - 1, m);
    }
  }

  lemma {:induction false} FifoBehind(contextId: string, events: seq<Event>, at: seq<nat>, sent: seq<Message>, n: nat)
    requires InOrder(sent) && Fifo(events, at, sent) && n <= |events|
    ensures Behind(ReceiveAll(Start(contextId), events[..n]), sent, NextAt(events, at, n))
    ensures ReceiveAll(Start(contextId), events[..n]).contextId == contextId
  {
    if n > 0 {
      FifoBehind(contextId, events, at, sent, n - 1);
      var v := ReceiveAll(Start(contextId), events[..n - 1]);
      assert events[..n][..n - 1] == events[..n - 1];
      if events[n - 1].Deliver? {
        NextBefore(events, at, sent, n - 1, n - 1);
        FifoStep(v, sent, NextAt(events, at, n - 1), at[n - 1]);
      }
    }
  }

  /** With messages delivered in the order in which they were sent, a client's revisions never go
      back, although rollbacks bypass the check that keeps out stale snapshots. */
  lemma FifoMonotone(states: seq<Host>, steps: seq<Step>, catalog: Catalog, contextId: string,
                     events: seq<Event>, at: seq<nat>, n: nat)
    requires IsRun(states, steps, catalog) && Initial(states[0])
    requires Fifo(events, at, states[|steps|].sent) && n < |events|
    ensures
      var v, u := ReceiveAll(Start(contextId), events[..n]), ReceiveAll(Start(contextId), events[..n + 1]);
      v.globalRevision <= u.globalRevision && v.contextRevision <= u.contextRevision
  {
    var sent := states[|steps|].sent;
    RunSent(states, steps, catalog, |steps|);
    FifoBehind(contextId, events, at, sent, n);
    assert events[..n + 1][..n] == events[..n];
    if events[n].Deliver? {
      NextBefore(events, at, sent, n, n);
      FifoStep(ReceiveAll(Start(contextId), events[..n]), sent, NextAt(events, at, n), at[n]);
    }
  }
}
