/** The calls of chatgpt-provider-runtime.js as they rewrite the stored sessions. */
module SessionRuntime {
  import opened Options
  import opened Sessions
  import opened SessionCalls

  datatype Reply = Refused | NothingPending | Replayed(session: Session) | Done(session: Session)

  method Pick<T(==)>(s: set<T>) returns (x: T)
    requires s != {}
    ensures x in s
  {
    x :| x in s;
  }

  /** The records of which some have been handled. */
  function Partly(m: Stored, done: set<string>, change: Session -> Session): Stored {
    map id | id in m :: if id in done then change(m[id]) else m[id]
  }

  function Expiring(now: int): Session -> Session {
    s => ExpireIfNeeded(s, now)
  }

  function Cancelling(now: int): Session -> Session {
    s => CancelCurrent(s, now)
  }

  lemma {:induction false} AllHandled(m: Stored, now: int)
    ensures Partly(m, m.Keys, Expiring(now)) == ExpireAll(m, now)
    ensures Partly(m, m.Keys, Cancelling(now)) == CancelAll(m, now)
  {}

  class ProviderRuntime {
    const hash: string -> string
    var sessions: Stored
    /** The latest ready event of each session. */
    ghost var latest: map<string, Candidate>

    constructor (hash: string -> string)
      ensures this.hash == hash && sessions == map[] && Valid()
    {
      this.hash := hash;
      sessions, latest := map[], map[];
    }

    ghost predicate Valid()
      reads this
    {
      Invariant(hash, sessions, latest)
    }

    /** The loop over all records, each of which is saved when it changes. */
    method ForEachRecord(change: Session -> Session)
      modifies this`sessions
      ensures sessions == Partly(old(sessions), old(sessions).Keys, change)
    {
      ghost var m := sessions;
      var rest := sessions.Keys;
      while rest != {}
        invariant rest <= m.Keys && sessions == Partly(m, m.Keys - rest, change)
        decreases rest
      {
        var id := Pick(rest);
        sessions := sessions[id := change(sessions[id])];
        rest := rest - {id};
      }
      assert m.Keys - rest == m.Keys;
    }

    /** What every call comes to: the store as the call makes it, with what is shown of that. */
    ghost method Performed(m: Stored, call: Call)
      requires Invariant(hash, m, latest) && Performs(hash, m, call, sessions)
      modifies this`latest
      ensures Valid() && Evolves(hash, m, sessions)
      ensures OnePerTab(m) ==> (OnePerTab(sessions) <==> !TakesBusyTab(m, call))
      ensures latest == Heard(hash, m, call, old(latest))
    {
      PerformsKeeps(hash, m, call, sessions, latest);
      latest := Heard(hash, m, call, latest);
    }

    method ExpireEach(now: int)
      modifies this`sessions
      ensures sessions == ExpireAll(old(sessions), now)
    {
      ghost var m := sessions;
      ForEachRecord(Expiring(now));
      AllHandled(m, now);
    }

    /** Every call that lists the records. */
    method Expire(now: int)
      requires Valid()
      modifies this
      ensures Valid() && Performs(hash, old(sessions), Look(now), sessions) && Evolves(hash, old(sessions), sessions)
      ensures OnePerTab(old(sessions)) ==> OnePerTab(sessions)
    {
      ExpireEach(now);
      Performed(old(sessions), Look(now));
    }

    method FindRequest(requestId: Option<string>) returns (found: Option<string>)
      ensures found.Some? ==> found.value in sessions && sessions[found.value].request.requestId == requestId
      ensures found.None? <==> !Asked(sessions, requestId)
    {
      var rest := sessions.Keys;
      while rest != {}
        invariant rest <= sessions.Keys
        invariant forall id :: id in sessions && id !in rest ==> sessions[id].request.requestId != requestId
        decreases rest
      {
        var id := Pick(rest);
        if sessions[id].request.requestId == requestId {
          return Some(id);
        }
        rest := rest - {id};
      }
      return None;
    }

    /** A request that was seen before is answered by its session; another one gets a session on a tab
        that is not busy, or on one that the browser opens. */
    method Create(authorized: bool, request: Request, enabled: bool, tabs: seq<int>, newTab: Option<int>, id: string,
            now: int)
      returns (reply: Reply)
      requires Valid() && id !in sessions
      modifies this
      ensures Valid() && Evolves(hash, old(sessions), sessions)
      ensures !authorized ==> reply.Refused? && sessions == old(sessions)
      ensures
        var call := Call.Create(request, enabled, tabs, newTab, id, now);
        var m := ExpireAll(old(sessions), now);
        authorized ==>
          && Performs(hash, old(sessions), call, sessions)
          && (OnePerTab(old(sessions)) ==> (OnePerTab(sessions) <==> !TakesBusyTab(old(sessions), call)))
          && (reply.Done? <==> Opens(m, call)) && (reply.Done? ==> reply.session == sessions[id])
          && (reply.Replayed? ==>
                && Truthy(request.requestId) && reply.session.request == request
                && exists k :: k in m && m[k] == reply.session)
          && !reply.NothingPending?
    {
      if !authorized {
        return Refused;
      }
      ghost var m := sessions;
      ghost var call := Call.Create(request, enabled, tabs, newTab, id, now);
      ExpireEach(now);
      var existing: Option<string> := None;
      if Truthy(request.requestId) {
        existing := FindRequest(request.requestId);
      }
      var tab := TabFor(tabs, newTab, sessions);
      if existing.Some? {
        var s := sessions[existing.value];
        reply := if s.request == request then Replayed(s) else Refused;
      } else if !enabled || tab.None? || tab.value < 0 {
        reply := Refused;
      } else {
        var s := NewSession(id, request, tab.value, now);
        sessions := sessions[id := s];
        reply := Done(s);
      }
      Performed(m, call);
    }

    /** A session is shown as it is after its deadline is checked. */
    method Read(authorized: bool, id: string, now: int) returns (reply: Reply)
      requires Valid()
      modifies this
      ensures Valid() && Evolves(hash, old(sessions), sessions)
      ensures OnePerTab(old(sessions)) ==> OnePerTab(sessions)
      ensures !authorized ==> sessions == old(sessions)
      ensures authorized ==> Performs(hash, old(sessions), Call.Read(id, now), sessions)
      ensures if authorized && id in old(sessions) then id in sessions && reply == Done(sessions[id])
        else reply == Refused
    {
      if !authorized || id !in sessions {
        return Refused;
      }
      ghost var m := sessions;
      var s := ExpireIfNeeded(sessions[id], now);
      sessions := sessions[id := s];
      Performed(m, Call.Read(id, now));
      return Done(s);
    }

    method Cancel(authorized: bool, id: string, now: int) returns (reply: Reply)
      requires Valid()
      modifies this
      ensures Valid() && Evolves(hash, old(sessions), sessions)
      ensures OnePerTab(old(sessions)) ==> OnePerTab(sessions)
      ensures !authorized ==> sessions == old(sessions)
      ensures authorized ==> Performs(hash, old(sessions), Call.Cancel(id, now), sessions)
      ensures reply.Refused? <==> !authorized || id !in old(sessions)
      ensures !reply.Refused? ==>
        reply.Done? && id in sessions && reply.session == sessions[id] && !Active(sessions[id])
    {
      if !authorized || id !in sessions {
        return Refused;
      }
      ghost var m := sessions;
      var s := CancelCurrent(ExpireIfNeeded(sessions[id], now), now);
      sessions := sessions[id := s];
      Performed(m, Call.Cancel(id, now));
      return Done(s);
    }

    /** Cancelling by request first expires every record. */
    method CancelRequest(authorized: bool, requestId: string, now: int) returns (reply: Reply)
      requires Valid()
      modifies this
      ensures Valid() && Evolves(hash, old(sessions), sessions)
      ensures OnePerTab(old(sessions)) ==> OnePerTab(sessions)
      ensures !authorized ==> sessions == old(sessions)
      ensures authorized ==> Performs(hash, old(sessions), Call.CancelRequest(requestId, now), sessions)
      ensures reply.Refused? <==> !authorized || !Asked(old(sessions), Some(requestId))
      ensures !reply.Refused? ==>
        reply.Done? && reply.session.request.requestId == Some(requestId) && !Active(reply.session)
      ensures !reply.Refused? ==> exists id :: id in sessions && sessions[id] == reply.session
    {
      if !authorized {
        return Refused;
      }
      ghost var m := sessions;
      ExpireEach(now);
      assert forall id :: id in m ==> sessions[id].request == m[id].request;
      var found := FindRequest(Some(requestId));
      reply := Refused;
      if found.Some? {
        var s := CancelCurrent(sessions[found.value], now);
        sessions := sessions[found.value := s];
        reply := Done(s);
      }
      Performed(m, Call.CancelRequest(requestId, now));
    }

    /** Disabling the provider cancels every active session. */
    method Disable(authorized: bool, now: int)
      requires Valid()
      modifies this
      ensures Valid() && Evolves(hash, old(sessions), sessions)
      ensures OnePerTab(old(sessions)) ==> OnePerTab(sessions)
      ensures if authorized then Performs(hash, old(sessions), Call.Disable(now), sessions)
        else sessions == old(sessions)
    {
      if authorized {
        ghost var m := sessions;
        ForEachRecord(Cancelling(now));
        AllHandled(m, now);
        Performed(m, Call.Disable(now));
      }
    }

    /** The latest of the sessions that wait for a tab. */
    method PendingForTab(tab: int) returns (pending: Option<string>)
      ensures pending.Some? ==> Waits(sessions, tab, pending.value)
      ensures pending.None? <==> !Busy(sessions, tab)
    {
      var rest := sessions.Keys;
      pending := None;
      while rest != {}
        invariant rest <= sessions.Keys
        invariant pending.Some? ==> Waiting(pending.value, tab) && pending.value !in rest
        invariant forall id :: id !in rest && Waiting(id, tab) ==>
          pending.Some? && sessions[id].updatedAt <= sessions[pending.value].updatedAt
        decreases rest
      {
        var id := Pick(rest);
        if Active(sessions[id]) && sessions[id].tabId == tab {
          if pending.None? || sessions[pending.value].updatedAt < sessions[id].updatedAt {
            pending := Some(id);
          }
        }
        rest := rest - {id};
      }
    }

    predicate Waiting(id: string, tab: int)
      reads this
    {
      id in sessions && Active(sessions[id]) && sessions[id].tabId == tab
    }

    /** A page announces itself, and gets the session that waits for its tab. */
    method Hello(authorized: bool, from: Principal, conversationId: Option<string>, now: int) returns (reply: Reply)
      requires Valid()
      modifies this
      ensures Valid() && Evolves(hash, old(sessions), sessions)
      ensures OnePerTab(old(sessions)) ==> OnePerTab(sessions)
      ensures !authorized ==> reply.Refused? && sessions == old(sessions)
      ensures authorized ==> Performs(hash, old(sessions), Call.Hello(from, conversationId, now), sessions)
      ensures reply.NothingPending? <==> authorized && !Busy(ExpireAll(old(sessions), now), from.tabId)
      ensures reply.Done? ==>
        var m := ExpireAll(old(sessions), now);
        exists id ::
          && Waits(m, from.tabId, id) && reply.session == Greeted(m[id], from, conversationId, now)
          && sessions == m[id := reply.session]
      ensures !reply.Replayed?
    {
      if !authorized {
        return Refused;
      }
      ghost var m := sessions;
      ExpireEach(now);
      var pending := PendingForTab(from.tabId);
      reply := NothingPending;
      if pending.Some? {
        var s := Greeted(sessions[pending.value], from, conversationId, now);
        reply := Refused;
        if Storable(s) {
          sessions := sessions[pending.value := s];
          reply := Done(s);
        }
      }
      Performed(m, Call.Hello(from, conversationId, now));
    }

    /** An event of a page about its session. */
    method HandleEvent(authorized: bool, id: string, event: Event, from: Principal, conversationId: Option<string>,
            now: int) returns (reply: Reply)
      requires Valid()
      modifies this
      ensures Valid() && Evolves(hash, old(sessions), sessions)
      ensures OnePerTab(old(sessions)) ==> OnePerTab(sessions)
      ensures !authorized ==> sessions == old(sessions)
      ensures authorized ==> Performs(hash, old(sessions), PageEvent(id, event, from, conversationId, now), sessions)
      ensures reply.Done? <==>
        && authorized && id in old(sessions)
        && Handled(hash, old(sessions)[id], event, from, conversationId, now).Some?
      ensures reply.Done? ==> id in sessions && reply.session == sessions[id]
      ensures reply.Done? ==> Latest(latest, id) == LatestAfter(event, Latest(old(latest), id))
      ensures !reply.Done? ==> latest == old(latest)
    {
      if !authorized || id !in sessions {
        return Refused;
      }
      ghost var m := sessions;
      var handled := Handled(hash, sessions[id], event, from, conversationId, now);
      reply := Refused;
      if handled.Some? {
        sessions := sessions[id := handled.value];
        reply := Done(handled.value);
      }
      Performed(m, PageEvent(id, event, from, conversationId, now));
    }
  }
}
