/** Foreground model sessions: the state machine of chatgpt-provider-runtime.js. Every call is taken
    as atomic. Times are milliseconds. */
module Sessions {
  import opened Options

  datatype Phase = Created | Attached | Staged | Ready | Returned | Cancelled | Expired

  datatype Request = Request(
    prompt: string, title: string, callerAppId: string, requestId: Option<string>, model: Option<string>,
    expiresAt: Option<int>)

  datatype Candidate = Candidate(output: string, assistantMessageId: Option<string>)

  datatype Session = Session(
    id: string, phase: Phase, request: Request, tabId: int, documentId: Option<string>, origin: Option<string>,
    conversationId: Option<string>, assistantMessageId: Option<string>, candidate: Option<Candidate>,
    output: Option<string>, outputDigest: Option<string>, createdAt: int, updatedAt: int, returnedAt: Option<int>)

  predicate Active(s: Session) {
    s.phase.Created? || s.phase.Attached? || s.phase.Staged? || s.phase.Ready?
  }

  /** How far a session has come. */
  function Rank(s: Session): nat {
    match s.phase case Created => 0 case Attached => 1 case Staged => 2 case Ready => 3 case _ => 4
  }

  const MAX_OUTPUT := 262144
  const MAX_DOCUMENT := 240

  /** What may vary in the checks before a session is stored. */
  predicate Storable(s: Session) {
    s.tabId >= 0 && (s.documentId.Some? ==> 1 <= |s.documentId.value| <= MAX_DOCUMENT)
  }

  // ---------------------------------------------------------------- one session

  function ExpireIfNeeded(s: Session, now: int): Session {
    if Active(s) && s.request.expiresAt.Some? && s.request.expiresAt.value <= now
    then s.(phase := Expired, candidate := None, updatedAt := now) else s
  }

  function CancelCurrent(s: Session, now: int): Session {
    if Active(s) then s.(phase := Cancelled, candidate := None, updatedAt := now) else s
  }

  /** The page that sends a message. */
  datatype Principal = Principal(tabId: int, documentId: Option<string>, origin: string)

  function Greeted(s: Session, from: Principal, conversationId: Option<string>, now: int): Session {
    s.(phase := if s.phase.Created? then Attached else s.phase,
       documentId := from.documentId, origin := Some(from.origin), conversationId := conversationId, updatedAt := now)
  }

  datatype Event =
    | StagedEvent
    | ReadyEvent(output: string, assistantMessageId: Option<string>)
    | ReturnedEvent(output: string, assistantMessageId: Option<string>)
    | DismissedEvent

  predicate Truthy(t: Option<string>) {
    t.Some? && t.value != ""
  }

  predicate OutputOk(output: string) {
    1 <= |output| <= MAX_OUTPUT
  }

  /** The message comes from the page that the session is bound to. */
  predicate Bound(s: Session, from: Principal) {
    && s.tabId == from.tabId
    && (Truthy(s.origin) ==> s.origin.value == from.origin)
    && (Truthy(s.documentId) && Truthy(from.documentId) && s.documentId != from.documentId ==>
          s.phase.Created? || s.phase.Attached?)
  }

  /** What every page event writes. */
  function Touched(s: Session, from: Principal, conversationId: Option<string>, now: int): Session {
    s.(documentId := from.documentId, origin := Some(from.origin), updatedAt := now,
       conversationId := if conversationId.Some? then conversationId else s.conversationId)
  }

  /** The session after a page event, or none if the event is refused. */
  function Handled(hash: string -> string, s: Session, event: Event, from: Principal, conversationId: Option<string>,
          now: int): Option<Session> {
    var common := Touched(s, from, conversationId, now);
    if !Bound(s, from) || !Storable(common) then None
    else match event
      case StagedEvent =>
        if s.phase.Created? || s.phase.Attached? || s.phase.Staged? then Some(common.(phase := Staged)) else None
      case ReadyEvent(output, messageId) =>
        if (s.phase.Staged? || s.phase.Ready?) && OutputOk(output)
        then Some(common.(phase := Ready, assistantMessageId := messageId,
                          candidate := Some(Candidate(output, messageId))))
        else None
      case ReturnedEvent(output, messageId) =>
        if s.phase.Ready? && s.candidate.Some? && OutputOk(output) && output == s.candidate.value.output
           && messageId == s.candidate.value.assistantMessageId
           && (Truthy(s.conversationId) ==> conversationId == s.conversationId)
        then Some(common.(phase := Returned, assistantMessageId := s.candidate.value.assistantMessageId,
                          output := Some(output),
                          outputDigest := Some(hash(output)), candidate := None, returnedAt := Some(now)))
        else None
      case DismissedEvent => Some(common.(phase := Cancelled, candidate := None))
  }

  // ---------------------------------------------------------------- what holds of one session

  /** A candidate waits in the ready phase alone, and is that of the latest ready event; an output was
      returned from it, with its digest. */
  ghost predicate SessionOk(hash: string -> string, s: Session, latest: Option<Candidate>) {
    && Storable(s) && (s.candidate.Some? <==> s.phase.Ready?) && (s.phase.Ready? ==> latest == s.candidate)
    && (s.output.Some? <==> s.outputDigest.Some?) && (s.output.Some? <==> s.returnedAt.Some?)
    && (s.phase.Returned? ==> s.output.Some?)
    && (s.output.Some? ==>
          && (s.phase.Returned? || s.phase.Cancelled?) && s.outputDigest.value == hash(s.output.value)
          && latest == Some(Candidate(s.output.value, s.assistantMessageId)))
  }

  /** How a session may go on: never back in rank, terminal for good, and the result written once,
      from the candidate under review. */
  ghost predicate Follows(hash: string -> string, s: Session, t: Session) {
    && t.id == s.id && t.request == s.request && t.tabId == s.tabId && t.createdAt == s.createdAt
    && Rank(s) <= Rank(t)
    && (s.output.Some? ==> t.output == s.output && t.outputDigest == s.outputDigest && t.returnedAt == s.returnedAt)
    && (s.output.None? && t.output.Some? ==>
          && s.phase.Ready? && t.phase.Returned? && s.candidate.Some?
          && t.output.value == s.candidate.value.output && t.outputDigest == Some(hash(t.output.value))
          && t.returnedAt.Some?)
  }

  lemma {:induction false} ExpireFollows(hash: string -> string, s: Session, now: int, latest: Option<Candidate>)
    requires SessionOk(hash, s, latest)
    ensures SessionOk(hash, ExpireIfNeeded(s, now), latest) && Follows(hash, s, ExpireIfNeeded(s, now))
    ensures SessionOk(hash, CancelCurrent(s, now), latest) && Follows(hash, s, CancelCurrent(s, now))
    ensures !Active(CancelCurrent(s, now))
  {}

  function LatestAfter(event: Event, latest: Option<Candidate>): Option<Candidate> {
    match event case ReadyEvent(output, messageId) => Some(Candidate(output, messageId)) case _ => latest
  }

  lemma {:induction false} HandledFollows(hash: string -> string, s: Session, event: Event, from: Principal,
          conversationId: Option<string>, now: int, latest: Option<Candidate>)
    requires SessionOk(hash, s, latest) && Handled(hash, s, event, from, conversationId, now).Some?
    ensures var t := Handled(hash, s, event, from, conversationId, now).value;
      && SessionOk(hash, t, LatestAfter(event, latest)) && Follows(hash, s, t) && (Active(t) ==> Active(s))
  {}

  /** A terminal session accepts one event: a dismissed event of its own page is handled in every phase,
      and cancels a returned or an expired session too. */
  lemma {:induction false} TerminalExactly(hash: string -> string, s: Session, event: Event, from: Principal,
                                           conversationId: Option<string>, now: int)
    requires !Active(s)
    ensures var t := Handled(hash, s, event, from, conversationId, now);
      && (t.Some? <==> event.DismissedEvent? && Bound(s, from) && Storable(Touched(s, from, conversationId, now)))
      && (t.Some? ==> t.value.phase.Cancelled? && t.value.output == s.output)
  {}

  // ---------------------------------------------------------------- the store

  type Stored = map<string, Session>

  function Latest(latest: map<string, Candidate>, id: string): Option<Candidate> {
    if id in latest then Some(latest[id]) else None
  }

  ghost predicate AllOk(hash: string -> string, m: Stored, latest: map<string, Candidate>) {
    forall id :: id in m ==> m[id].id == id && SessionOk(hash, m[id], Latest(latest, id))
  }

  /** At most one active session is bound to a tab. */
  ghost predicate OnePerTab(m: Stored) {
    forall a, b :: a in m && b in m && Active(m[a]) && Active(m[b]) && m[a].tabId == m[b].tabId ==> a == b
  }

  predicate SameRequest(s: Session, t: Session) {
    Truthy(s.request.requestId) && s.request.requestId == t.request.requestId
  }

  /** No two sessions answer the same request. */
  ghost predicate DistinctRequests(m: Stored) {
    forall a, b :: a in m && b in m && SameRequest(m[a], m[b]) ==> a == b
  }

  ghost predicate Invariant(hash: string -> string, m: Stored, latest: map<string, Candidate>) {
    AllOk(hash, m, latest) && DistinctRequests(m)
  }

  /** Every session goes on as it may; new ones start from the beginning. */
  ghost predicate Evolves(hash: string -> string, m: Stored, n: Stored) {
    && (forall id :: id in m ==> id in n && Follows(hash, m[id], n[id]))
    && (forall id :: id in n && id !in m ==> n[id].phase.Created? && n[id].output.None?)
  }

  /** What any change of existing sessions has to keep. */
  ghost predicate NoNewActive(m: Stored, n: Stored) {
    forall id :: id in n ==> id in m && (Active(n[id]) ==> Active(m[id]))
  }

  lemma {:induction false} EvolvesKeeps(hash: string -> string, m: Stored, n: Stored, latest: map<string, Candidate>,
          later: map<string, Candidate>)
    requires Invariant(hash, m, latest) && Evolves(hash, m, n) && NoNewActive(m, n) && AllOk(hash, n, later)
    ensures Invariant(hash, n, later) && (OnePerTab(m) ==> OnePerTab(n))
  {
    if OnePerTab(m) {
      forall a, b | a in n && b in n && Active(n[a]) && Active(n[b]) && n[a].tabId == n[b].tabId ensures a == b {
        assert Active(m[a]) && Active(m[b]) && m[a].tabId == m[b].tabId;
      }
    }
    forall a, b | a in n && b in n && SameRequest(n[a], n[b]) ensures a == b {
      assert m[a].request == n[a].request && m[b].request == n[b].request;
    }
  }

  function ExpireAll(m: Stored, now: int): Stored {
    map id | id in m :: ExpireIfNeeded(m[id], now)
  }

  function CancelAll(m: Stored, now: int): Stored {
    map id | id in m :: CancelCurrent(m[id], now)
  }

  lemma {:induction false} ExpireKeeps(hash: string -> string, m: Stored, now: int, latest: map<string, Candidate>)
    requires Invariant(hash, m, latest)
    ensures Invariant(hash, ExpireAll(m, now), latest) && Evolves(hash, m, ExpireAll(m, now))
    ensures Invariant(hash, CancelAll(m, now), latest) && Evolves(hash, m, CancelAll(m, now))
    ensures OnePerTab(m) ==> OnePerTab(ExpireAll(m, now)) && OnePerTab(CancelAll(m, now))
  {
    forall id | id in m
      ensures SessionOk(hash, ExpireIfNeeded(m[id], now), Latest(latest, id))
      ensures Follows(hash, m[id], ExpireIfNeeded(m[id], now))
      ensures SessionOk(hash, CancelCurrent(m[id], now), Latest(latest, id))
      ensures Follows(hash, m[id], CancelCurrent(m[id], now))
    {
      ExpireFollows(hash, m[id], now, Latest(latest, id));
    }
    EvolvesKeeps(hash, m, ExpireAll(m, now), latest, latest);
    EvolvesKeeps(hash, m, CancelAll(m, now), latest, latest);
  }

  /** One session goes on. */
  lemma {:induction false} ChangeKeeps(hash: string -> string, m: Stored, id: string, t: Session,
          latest: map<string, Candidate>, later: map<string, Candidate>)
    requires Invariant(hash, m, latest) && id in m && Follows(hash, m[id], t) && (Active(t) ==> Active(m[id]))
    requires SessionOk(hash, t, Latest(later, id))
    requires forall other :: other != id ==> Latest(later, other) == Latest(latest, other)
    ensures Invariant(hash, m[id := t], later) && Evolves(hash, m, m[id := t])
    ensures OnePerTab(m) ==> OnePerTab(m[id := t])
  {
    var n := m[id := t];
    forall k | k in n ensures n[k].id == k && SessionOk(hash, n[k], Latest(later, k)) {
      if k != id { assert SessionOk(hash, m[k], Latest(latest, k)); }
    }
    forall k | k in m ensures Follows(hash, m[k], n[k]) {}
    EvolvesKeeps(hash, m, n, latest, later);
  }

  lemma {:induction false} GreetFollows(hash: string -> string, s: Session, from: Principal,
          conversationId: Option<string>, now: int, latest: Option<Candidate>)
    requires SessionOk(hash, s, latest) && Active(s) && Storable(Greeted(s, from, conversationId, now))
    ensures SessionOk(hash, Greeted(s, from, conversationId, now), latest)
    ensures Follows(hash, s, Greeted(s, from, conversationId, now))
  {}

  /** A session for a request, bound to a tab, before its page has answered. */
  function NewSession(id: string, request: Request, tab: int, now: int): Session {
    Session(id, Created, request, tab, None, None, None, None, None, None, None, now, now, None)
  }

  predicate Busy(m: Stored, tab: int) {
    exists id :: id in m && Active(m[id]) && m[id].tabId == tab
  }

  lemma {:induction false} CreateKeeps(hash: string -> string, m: Stored, s: Session, latest: map<string, Candidate>)
    requires Invariant(hash, m, latest) && s == NewSession(s.id, s.request, s.tabId, s.createdAt) && s.tabId >= 0
    requires s.id !in m
    requires Truthy(s.request.requestId) ==> forall id :: id in m ==> m[id].request.requestId != s.request.requestId
    ensures Invariant(hash, m[s.id := s], latest) && Evolves(hash, m, m[s.id := s])
    ensures OnePerTab(m) ==> (OnePerTab(m[s.id := s]) <==> !Busy(m, s.tabId))
  {
    var n := m[s.id := s];
    if id :| id in m && Active(m[id]) && m[id].tabId == s.tabId {
      assert Active(n[id]) && Active(n[s.id]) && n[id].tabId == n[s.id].tabId && id != s.id;
    }
    forall id | id in m ensures n[id] == m[id] && Follows(hash, m[id], n[id]) {}
    forall id | id in n ensures n[id].id == id && SessionOk(hash, n[id], Latest(latest, id)) {
      if id != s.id { assert SessionOk(hash, m[id], Latest(latest, id)); }
    }
  }

  // ---------------------------------------------------------------- over whole runs

  /** What stays true of a session however long it goes on. */
  ghost predicate Reaches(hash: string -> string, s: Session, t: Session) {
    && t.id == s.id && t.request == s.request && t.tabId == s.tabId && t.createdAt == s.createdAt
    && Rank(s) <= Rank(t) && (!Active(s) ==> !Active(t))
    && (s.output.Some? ==> t.output == s.output && t.outputDigest == s.outputDigest && t.returnedAt == s.returnedAt)
  }

  /** Over a whole run no session disappears or goes back in rank, the terminal phases are closed, and
      a result that is there stays as it is. */
  lemma {:induction false} RunReaches(hash: string -> string, run: seq<Stored>, i: nat, j: nat, id: string)
    requires i <= j < |run| && id in run[i]
    requires forall k :: 0 <= k < |run| - 1 ==> Evolves(hash, run[k], run[k + 1])
    ensures id in run[j] && Reaches(hash, run[i][id], run[j][id])
    decreases j - i
  {
    if i < j {
      RunReaches(hash, run, i, j - 1, id);
      assert Evolves(hash, run[j - 1], run[j - 1 + 1]);
      assert Follows(hash, run[j - 1][id], run[j][id]);
    }
  }

  /** The step at which a session's result is written. */
  ghost predicate Writes(run: seq<Stored>, k: nat, id: string) {
    k + 1 < |run| && id in run[k + 1] && run[k + 1][id].output.Some? && (id in run[k] ==> run[k][id].output.None?)
  }

  lemma {:induction false} WrittenFrom(hash: string -> string, m: Stored, n: Stored, id: string)
    requires Evolves(hash, m, n) && id in n && n[id].output.Some? && (id in m ==> m[id].output.None?)
    ensures id in m && m[id].phase.Ready? && m[id].candidate.Some?
    ensures n[id].output.value == m[id].candidate.value.output && n[id].outputDigest == Some(hash(n[id].output.value))
  {}

  lemma {:induction false} NotWrittenAgain(hash: string -> string, run: seq<Stored>, k: nat, n: nat, id: string)
    requires forall i :: 0 <= i < |run| - 1 ==> Evolves(hash, run[i], run[i + 1])
    requires k < n && Writes(run, k, id)
    ensures !Writes(run, n, id)
  {
    if n < |run| {
      RunReaches(hash, run, k + 1, n, id);
    }
  }

  /** A session's result is written at most once in a run, and then it is the reviewed candidate of a
      session that was ready, with its digest. */
  lemma {:induction false} WrittenOnce(hash: string -> string, run: seq<Stored>, k: nat, id: string)
    requires forall i :: 0 <= i < |run| - 1 ==> Evolves(hash, run[i], run[i + 1])
    requires Writes(run, k, id)
    ensures id in run[k] && run[k][id].phase.Ready? && run[k][id].candidate.Some?
    ensures run[k + 1][id].output.value == run[k][id].candidate.value.output
    ensures run[k + 1][id].outputDigest == Some(hash(run[k + 1][id].output.value))
    ensures forall n :: Writes(run, n, id) ==> n == k
  {
    WrittenFrom(hash, run[k], run[k + 1], id);
    forall n: nat | Writes(run, n, id) ensures n == k {
      if k < n {
        NotWrittenAgain(hash, run, k, n, id);
      } else if n < k {
        NotWrittenAgain(hash, run, n, k, id);
      }
    }
  }
}

