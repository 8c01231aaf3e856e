/** The calls of chatgpt-provider-runtime.js as changes of the stored sessions, and runs of calls. */
module SessionCalls {
  import opened Options
  import opened Sessions

  // ---------------------------------------------------------------- calls

  datatype Call =
    | Look(now: int)
    | Read(id: string, now: int)
    | Create(request: Request, enabled: bool, tabs: seq<int>, newTab: Option<int>, id: string, now: int)
    | Cancel(id: string, now: int)
    | CancelRequest(requestId: string, now: int)
    | Disable(now: int)
    | Hello(from: Principal, conversationId: Option<string>, now: int)
    | PageEvent(id: string, event: Event, from: Principal, conversationId: Option<string>, now: int)

  predicate Asked(m: Stored, requestId: Option<string>) {
    exists id :: id in m && m[id].request.requestId == requestId
  }

  /** The first of the open tabs that is not busy. */
  function First(tabs: seq<int>, m: Stored): Option<int> {
    if tabs == [] then None else if !Busy(m, tabs[0]) then Some(tabs[0]) else First(tabs[1..], m)
  }

  lemma {:induction false} FirstFree(tabs: seq<int>, m: Stored)
    ensures First(tabs, m).Some? ==> First(tabs, m).value in tabs && !Busy(m, First(tabs, m).value)
    ensures First(tabs, m).None? ==> forall i :: 0 <= i < |tabs| ==> Busy(m, tabs[i])
  {
    if tabs != [] {
      FirstFree(tabs[1..], m);
      if First(tabs, m).None? {
        forall i | 0 <= i < |tabs| ensures Busy(m, tabs[i]) {
          if i > 0 { assert tabs[i] == tabs[1..][i - 1]; }
        }
      }
    }
  }

  /** The tab of a new session: a free one, or else the one that the browser opens. */
  function TabFor(tabs: seq<int>, newTab: Option<int>, m: Stored): Option<int> {
    if First(tabs, m).Some? then First(tabs, m) else newTab
  }

  predicate Opens(m: Stored, call: Call)
    requires call.Create?
  {
    && call.enabled && !(Truthy(call.request.requestId) && Asked(m, call.request.requestId))
    && TabFor(call.tabs, call.newTab, m).Some? && TabFor(call.tabs, call.newTab, m).value >= 0
  }

  /** The session that waits for a tab: if there are several, one that was updated last. */
  ghost predicate Waits(m: Stored, tab: int, id: string) {
    && id in m && Active(m[id]) && m[id].tabId == tab
    && forall other :: other in m && Active(m[other]) && m[other].tabId == tab ==> m[other].updatedAt <= m[id].updatedAt
  }

  /** What a call makes of the store. */
  ghost predicate Performs(hash: string -> string, m: Stored, call: Call, n: Stored) {
    match call
    case Look(now) => n == ExpireAll(m, now)
    case Read(id, now) => n == if id in m then m[id := ExpireIfNeeded(m[id], now)] else m
    case Create(request, _, tabs, newTab, id, now) =>
      var e := ExpireAll(m, now);
      && id !in m
      && n == if Opens(e, call) then e[id := NewSession(id, request, TabFor(tabs, newTab, e).value, now)] else e
    case Cancel(id, now) => n == if id in m then m[id := CancelCurrent(ExpireIfNeeded(m[id], now), now)] else m
    case CancelRequest(requestId, now) =>
      var e := ExpireAll(m, now);
      if !Asked(e, Some(requestId)) then n == e
      else exists id :: id in e && e[id].request.requestId == Some(requestId) && n == e[id := CancelCurrent(e[id], now)]
    case Disable(now) => n == CancelAll(m, now)
    case Hello(from, conversationId, now) =>
      var e := ExpireAll(m, now);
      if !Busy(e, from.tabId) then n == e
      else exists id :: Waits(e, from.tabId, id) && n == Attaching(e, id, from, conversationId, now)
    case PageEvent(id, event, from, conversationId, now) =>
      n == if id in m && Handled(hash, m[id], event, from, conversationId, now).Some?
           then m[id := Handled(hash, m[id], event, from, conversationId, now).value] else m
  }

  function Attaching(m: Stored, id: string, from: Principal, conversationId: Option<string>, now: int): Stored
    requires id in m
  {
    var s := Greeted(m[id], from, conversationId, now);
    if Storable(s) then m[id := s] else m
  }

  /** The latest ready event of each session, after a call. */
  function Heard(hash: string -> string, m: Stored, call: Call,
                 latest: map<string, Candidate>): map<string, Candidate> {
    if call.PageEvent? && call.event.ReadyEvent? && call.id in m
       && Handled(hash, m[call.id], call.event, call.from, call.conversationId, call.now).Some?
    then latest[call.id := Candidate(call.event.output, call.event.assistantMessageId)] else latest
  }

  /** The one call that breaks "at most one active session for each tab": no open tab is free, and the
      tab that the browser opens has an id that an active session is bound to. */
  predicate TakesBusyTab(m: Stored, call: Call) {
    call.Create? &&
    var e := ExpireAll(m, call.now);
    Opens(e, call) && First(call.tabs, e).None? && Busy(e, call.newTab.value)
  }

  // ---------------------------------------------------------------- what a call keeps

  /** What is to be shown of a call. */
  ghost predicate Keeps(hash: string -> string, m: Stored, n: Stored, later: map<string, Candidate>, breaks: bool) {
    && Invariant(hash, n, later) && Evolves(hash, m, n)
    && (OnePerTab(m) ==> (OnePerTab(n) <==> !breaks))
  }

  /** The store after all sessions that are due have expired. */
  ghost predicate Settled(hash: string -> string, m: Stored, e: Stored, latest: map<string, Candidate>) {
    && Invariant(hash, e, latest) && Evolves(hash, m, e) && (OnePerTab(m) ==> OnePerTab(e))
    && e.Keys == m.Keys && forall id :: id in m ==> e[id].output == m[id].output
  }

  lemma {:induction false} ExpireSettles(hash: string -> string, m: Stored, now: int, latest: map<string, Candidate>)
    requires Invariant(hash, m, latest)
    ensures Settled(hash, m, ExpireAll(m, now), latest)
  {
    ExpireKeeps(hash, m, now, latest);
  }

  /** A change that writes no result, after that. */
  lemma {:induction false} AfterExpiry(hash: string -> string, m: Stored, e: Stored, n: Stored)
    requires Evolves(hash, m, e) && Evolves(hash, e, n)
    requires e.Keys == m.Keys && forall id :: id in m ==> n[id].output == e[id].output == m[id].output
    ensures Evolves(hash, m, n)
  {
    forall id | id in m ensures id in n && Follows(hash, m[id], n[id]) {
      assert Follows(hash, m[id], e[id]) && Follows(hash, e[id], n[id]);
    }
  }

  lemma {:induction false} CreateAfterExpiry(hash: string -> string, m: Stored, e: Stored, s: Session,
                                             latest: map<string, Candidate>)
    requires Settled(hash, m, e, latest) && s == NewSession(s.id, s.request, s.tabId, s.createdAt) && s.tabId >= 0
    requires s.id !in e
    requires Truthy(s.request.requestId) ==> !Asked(e, s.request.requestId)
    ensures Keeps(hash, m, e[s.id := s], latest, Busy(e, s.tabId))
  {
    CreateKeeps(hash, e, s, latest);
    AfterExpiry(hash, m, e, e[s.id := s]);
  }

  lemma {:induction false} CreatePerformed(hash: string -> string, m: Stored, call: Call, n: Stored,
                                           latest: map<string, Candidate>)
    requires Invariant(hash, m, latest) && call.Create? && Performs(hash, m, call, n)
    ensures Keeps(hash, m, n, latest, TakesBusyTab(m, call))
  {
    var e := ExpireAll(m, call.now);
    ExpireSettles(hash, m, call.now, latest);
    FirstFree(call.tabs, e);
    if Opens(e, call) {
      CreateAfterExpiry(hash, m, e,
                        NewSession(call.id, call.request, TabFor(call.tabs, call.newTab, e).value, call.now), latest);
    }
  }

  /** A session that is active then goes on, or is cancelled. */
  lemma {:induction false} ChangeAfterExpiry(hash: string -> string, m: Stored, e: Stored, id: string, t: Session,
                                             latest: map<string, Candidate>)
    requires Settled(hash, m, e, latest) && id in e && Follows(hash, e[id], t) && t.output == e[id].output
    requires (Active(t) ==> Active(e[id])) && SessionOk(hash, t, Latest(latest, id))
    ensures Keeps(hash, m, e[id := t], latest, false)
  {
    ChangeKeeps(hash, e, id, t, latest, latest);
    AfterExpiry(hash, m, e, e[id := t]);
  }

  lemma {:induction false} CancelPerformed(hash: string -> string, m: Stored, call: Call, n: Stored,
                                           latest: map<string, Candidate>)
    requires Invariant(hash, m, latest) && (call.Cancel? || call.Read?) && Performs(hash, m, call, n)
    ensures Keeps(hash, m, n, latest, false)
  {
    if call.id in m {
      var s := m[call.id];
      ExpireFollows(hash, s, call.now, Latest(latest, call.id));
      var expired := ExpireIfNeeded(s, call.now);
      ExpireFollows(hash, expired, call.now, Latest(latest, call.id));
      ChangeKeeps(hash, m, call.id, n[call.id], latest, latest);
    } else {
      Unchanged(hash, m);
    }
  }

  lemma {:induction false} Unchanged(hash: string -> string, m: Stored)
    ensures Evolves(hash, m, m)
  {}

  lemma {:induction false} CancelRequestPerformed(hash: string -> string, m: Stored, call: Call, n: Stored,
                                                  latest: map<string, Candidate>)
    requires Invariant(hash, m, latest) && call.CancelRequest? && Performs(hash, m, call, n)
    ensures Keeps(hash, m, n, latest, false)
  {
    var e := ExpireAll(m, call.now);
    ExpireSettles(hash, m, call.now, latest);
    if Asked(e, Some(call.requestId)) {
      var id :| id in e && e[id].request.requestId == Some(call.requestId)
          && n == e[id := CancelCurrent(e[id], call.now)];
      ExpireFollows(hash, e[id], call.now, Latest(latest, id));
      ChangeAfterExpiry(hash, m, e, id, CancelCurrent(e[id], call.now), latest);
    }
  }

  lemma {:induction false} HelloPerformed(hash: string -> string, m: Stored, call: Call, n: Stored,
                                          latest: map<string, Candidate>)
    requires Invariant(hash, m, latest) && call.Hello? && Performs(hash, m, call, n)
    ensures Keeps(hash, m, n, latest, false)
  {
    var e := ExpireAll(m, call.now);
    ExpireSettles(hash, m, call.now, latest);
    if Busy(e, call.from.tabId) {
      var id :| Waits(e, call.from.tabId, id) && n == Attaching(e, id, call.from, call.conversationId, call.now);
      var s := Greeted(e[id], call.from, call.conversationId, call.now);
      if Storable(s) {
        GreetFollows(hash, e[id], call.from, call.conversationId, call.now, Latest(latest, id));
        ChangeAfterExpiry(hash, m, e, id, s, latest);
      }
    }
  }

  lemma {:induction false} EventPerformed(hash: string -> string, m: Stored, call: Call, n: Stored,
                                          latest: map<string, Candidate>)
    requires Invariant(hash, m, latest) && call.PageEvent? && Performs(hash, m, call, n)
    ensures Keeps(hash, m, n, Heard(hash, m, call, latest), false)
  {
    if call.id in m && Handled(hash, m[call.id], call.event, call.from, call.conversationId, call.now).Some? {
      HandledFollows(hash, m[call.id], call.event, call.from, call.conversationId, call.now, Latest(latest, call.id));
      ChangeKeeps(hash, m, call.id, n[call.id], latest, Heard(hash, m, call, latest));
    } else {
      Unchanged(hash, m);
    }
  }

  /** Every call keeps the invariant and moves no session back. It keeps "at most one active session for
      each tab" unless the browser opens a tab whose id is in use. */
  lemma {:induction false} PerformsKeeps(hash: string -> string, m: Stored, call: Call, n: Stored,
                                         latest: map<string, Candidate>)
    requires Invariant(hash, m, latest) && Performs(hash, m, call, n)
    ensures Invariant(hash, n, Heard(hash, m, call, latest)) && Evolves(hash, m, n)
    ensures OnePerTab(m) ==> (OnePerTab(n) <==> !TakesBusyTab(m, call))
  {
    match call
    case Look(now) => ExpireKeeps(hash, m, now, latest);
    case Disable(now) => ExpireKeeps(hash, m, now, latest);
    case Create(_, _, _, _, _, _) => CreatePerformed(hash, m, call, n, latest);
    case CancelRequest(_, _) => CancelRequestPerformed(hash, m, call, n, latest);
    case Hello(_, _, _) => HelloPerformed(hash, m, call, n, latest);
    case PageEvent(_, _, _, _, _) => EventPerformed(hash, m, call, n, latest);
    case _ => CancelPerformed(hash, m, call, n, latest);
  }

  // ---------------------------------------------------------------- runs of calls

  ghost predicate StepAt(hash: string -> string, run: seq<Stored>, calls: seq<Call>, k: nat)
    requires k + 1 < |run| && k < |calls|
  {
    Performs(hash, run[k], calls[k], run[k + 1])
  }

  ghost predicate IsRun(hash: string -> string, run: seq<Stored>, calls: seq<Call>) {
    && |run| == |calls| + 1 && run[0] == map[]
    && forall k :: 0 <= k < |calls| ==> StepAt(hash, run, calls, k)
  }

  function HeardIn(hash: string -> string, run: seq<Stored>, calls: seq<Call>, k: nat): map<string, Candidate>
    requires k <= |calls| && |run| == |calls| + 1
  {
    if k == 0 then map[] else Heard(hash, run[k - 1], calls[k - 1], HeardIn(hash, run, calls, k - 1))
  }

  lemma {:induction false} RunKeeps(hash: string -> string, run: seq<Stored>, calls: seq<Call>, k: nat)
    requires IsRun(hash, run, calls) && k <= |calls|
    ensures Invariant(hash, run[k], HeardIn(hash, run, calls, k))
  {
    if k > 0 {
      RunKeeps(hash, run, calls, k - 1);
      assert StepAt(hash, run, calls, k - 1);
      PerformsKeeps(hash, run[k - 1], calls[k - 1], run[k], HeardIn(hash, run, calls, k - 1));
    }
  }

  /** So what was shown of sessions that evolve holds of every run of calls. */
  lemma {:induction false} RunEvolves(hash: string -> string, run: seq<Stored>, calls: seq<Call>)
    requires IsRun(hash, run, calls)
    ensures forall k :: 0 <= k < |run| - 1 ==> Evolves(hash, run[k], run[k + 1])
  {
    forall k | 0 <= k < |run| - 1 ensures Evolves(hash, run[k], run[k + 1]) {
      RunKeeps(hash, run, calls, k);
      assert StepAt(hash, run, calls, k);
      PerformsKeeps(hash, run[k], calls[k], run[k + 1], HeardIn(hash, run, calls, k));
    }
  }

  lemma {:induction false} TabsUpTo(hash: string -> string, run: seq<Stored>, calls: seq<Call>, k: nat)
    requires IsRun(hash, run, calls) && k <= |calls|
    requires forall i :: 0 <= i < k ==> !TakesBusyTab(run[i], calls[i])
    ensures OnePerTab(run[k])
  {
    if k > 0 {
      TabsUpTo(hash, run, calls, k - 1);
      RunKeeps(hash, run, calls, k - 1);
      assert StepAt(hash, run, calls, k - 1);
      PerformsKeeps(hash, run[k - 1], calls[k - 1], run[k], HeardIn(hash, run, calls, k - 1));
    }
  }

  /** There is at most one active session for each tab throughout a run exactly when the browser never
      opens a tab whose id is in use. */
  lemma {:induction false} TabsExactly(hash: string -> string, run: seq<Stored>, calls: seq<Call>)
    requires IsRun(hash, run, calls)
    ensures (forall k :: 0 <= k < |run| ==> OnePerTab(run[k])) <==>
      (forall k :: 0 <= k < |calls| ==> !TakesBusyTab(run[k], calls[k]))
  {
    if forall k :: 0 <= k < |calls| ==> !TakesBusyTab(run[k], calls[k]) {
      forall k | 0 <= k < |run| ensures OnePerTab(run[k]) { TabsUpTo(hash, run, calls, k); }
    } else {
      var k :| 0 <= k < |calls| && TakesBusyTab(run[k], calls[k]);
      RunKeeps(hash, run, calls, k);
      assert StepAt(hash, run, calls, k);
      PerformsKeeps(hash, run[k], calls[k], run[k + 1], HeardIn(hash, run, calls, k));
      assert !OnePerTab(run[k]) || !OnePerTab(run[k + 1]);
    }
  }

  // ---------------------------------------------------------------- terminal phases

  /** A page dismisses a session that is not cancelled. */
  predicate Dismisses(m: Stored, call: Call, id: string) {
    && call.PageEvent? && call.event.DismissedEvent? && call.id == id && id in m && !m[id].phase.Cancelled?
    && Bound(m[id], call.from) && Storable(Touched(m[id], call.from, call.conversationId, call.now))
  }

  lemma {:induction false} TerminalStep(hash: string -> string, m: Stored, call: Call, n: Stored, id: string)
    requires Performs(hash, m, call, n) && id in m && !Active(m[id])
    ensures id in n && !Active(n[id])
    ensures n[id].phase == if Dismisses(m, call, id) then Cancelled else m[id].phase
  {
    if call.PageEvent? && call.id == id {
      TerminalExactly(hash, m[id], call.event, call.from, call.conversationId, call.now);
    }
  }

  /** A terminal session keeps its phase along a run exactly when no page dismisses it there; and the only
      other phase it can come to is cancelled. */
  lemma {:induction false} TerminalKept(hash: string -> string, run: seq<Stored>, calls: seq<Call>, i: nat, j: nat,
                                        id: string)
    requires IsRun(hash, run, calls) && i <= j < |run| && id in run[i] && !Active(run[i][id])
    ensures id in run[j] && !Active(run[j][id])
    ensures run[j][id].phase == run[i][id].phase <==> forall k :: i <= k < j ==> !Dismisses(run[k], calls[k], id)
    ensures run[j][id].phase == run[i][id].phase || run[j][id].phase.Cancelled?
    decreases j - i
  {
    if i < j {
      TerminalKept(hash, run, calls, i, j - 1, id);
      assert StepAt(hash, run, calls, j - 1);
      TerminalStep(hash, run[j - 1], calls[j - 1], run[j], id);
    }
  }

  // ---------------------------------------------------------------- two runs

  const aRequest := Request("Hello", "Greeting", "app", None, None, None)
  const aPage := Principal(7, None, "https://chatgpt.com")

  lemma {:induction false} RunExtended(hash: string -> string, run: seq<Stored>, calls: seq<Call>, call: Call,
                                       n: Stored)
    requires IsRun(hash, run, calls) && Performs(hash, run[|calls|], call, n)
    ensures IsRun(hash, run + [n], calls + [call])
  {
    forall k | 0 <= k <= |calls| ensures StepAt(hash, run + [n], calls + [call], k) {
      if k < |calls| { assert StepAt(hash, run, calls, k); }
    }
  }

  /** The page sends an event, and the run goes on. */
  lemma {:induction false} Told(hash: string -> string, run: seq<Stored>, calls: seq<Call>, s: Session, e: Event,
                                t: Session)
      returns (more: seq<Stored>, told: seq<Call>)
    requires IsRun(hash, run, calls) && run[|calls|] == map["a" := s]
    requires Handled(hash, s, e, aPage, None, |calls|) == Some(t)
    ensures IsRun(hash, more, told) && more == run + [map["a" := t]]
  {
    more, told := run + [map["a" := t]], calls + [PageEvent("a", e, aPage, None, |calls|)];
    assert map["a" := s]["a" := t] == map["a" := t];
    RunExtended(hash, run, calls, PageEvent("a", e, aPage, None, |calls|), map["a" := t]);
  }

  lemma {:induction false} Opened(hash: string -> string, s: Session)
    requires s == NewSession("a", aRequest, 7, 0)
    ensures IsRun(hash, [map[], map["a" := s]], [Create(aRequest, true, [7], None, "a", 0)])
  {
    assert ExpireAll(map[], 0) == map[] && First([7], map[]) == Some(7);
    var calls := [Create(aRequest, true, [7], None, "a", 0)];
    assert StepAt(hash, [map[], map["a" := s]], calls, 0);
  }

  /** A result is staged, reviewed and returned, and then the page dismisses the session. */
  lemma {:induction false} ReturnedThenCancelled(hash: string -> string) returns (run: seq<Stored>, calls: seq<Call>)
    ensures IsRun(hash, run, calls) && |run| == 6
    ensures "a" in run[4] && run[4]["a"].phase.Returned? && "a" in run[5] && run[5]["a"].phase.Cancelled?
  {
    var created := NewSession("a", aRequest, 7, 0);
    var staged := Handled(hash, created, StagedEvent, aPage, None, 1).value;
    var ready := Handled(hash, staged, ReadyEvent("Hi", None), aPage, None, 2).value;
    var returned := Handled(hash, ready, ReturnedEvent("Hi", None), aPage, None, 3).value;
    var cancelled := Handled(hash, returned, DismissedEvent, aPage, None, 4).value;
    Opened(hash, created);
    run, calls := Told(hash, [map[], map["a" := created]], [Create(aRequest, true, [7], None, "a", 0)], created,
                       StagedEvent, staged);
    run, calls := Told(hash, run, calls, staged, ReadyEvent("Hi", None), ready);
    run, calls := Told(hash, run, calls, ready, ReturnedEvent("Hi", None), returned);
    run, calls := Told(hash, run, calls, returned, DismissedEvent, cancelled);
  }

  /** Sessions outlive the browser that opened their tabs: without a deadline the first is still active
      when another browser session opens a tab under the same id. */
  lemma {:induction false} TabShared(hash: string -> string) returns (run: seq<Stored>, calls: seq<Call>)
    ensures IsRun(hash, run, calls) && |run| == 3 && OnePerTab(run[1]) && !OnePerTab(run[2])
  {
    calls := [Create(aRequest, true, [], Some(7), "a", 0), Create(aRequest, true, [], Some(7), "b", 1)];
    var a, b := NewSession("a", aRequest, 7, 0), NewSession("b", aRequest, 7, 1);
    run := [map[], map["a" := a], map["a" := a, "b" := b]];
    assert ExpireAll(map[], 0) == map[] && ExpireAll(run[1], 1) == run[1];
    assert StepAt(hash, run, calls, 0) && StepAt(hash, run, calls, 1);
    assert Active(run[2]["a"]) && Active(run[2]["b"]);
  }
}
