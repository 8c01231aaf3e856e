/** Message trees of captured conversations: the walk of chats-store.js that looks for cycles among
    parents. */
module Chats {
  import opened Options

  datatype Message = Message(id: string, parentId: Option<string>)

  function IdsOf(messages: seq<Message>): set<string> {
    set i | 0 <= i < |messages| :: messages[i].id
  }

  ghost predicate DistinctIds(messages: seq<Message>) {
    forall i, j :: 0 <= i < j < |messages| ==> messages[i].id != messages[j].id
  }

  /** Every parent is one of the messages. */
  ghost predicate NoDangling(messages: seq<Message>) {
    forall i :: 0 <= i < |messages| && messages[i].parentId.Some? ==> messages[i].parentId.value in IdsOf(messages)
  }

  /** The messages by id; of two with the same id, the later. */
  function ById(messages: seq<Message>): map<string, Message> {
    if messages == [] then map[]
    else ById(messages[..|messages| - 1])[messages[|messages| - 1].id := messages[|messages| - 1]]
  }

  lemma {:induction false} ByIdKeys(messages: seq<Message>)
    ensures ById(messages).Keys == IdsOf(messages)
    ensures forall id :: id in ById(messages) ==> ById(messages)[id] in messages && ById(messages)[id].id == id
  {
    if messages != [] {
      var before, m := messages[..|messages| - 1], messages[|messages| - 1];
      ByIdKeys(before);
      assert messages == before + [m];
      forall i | 0 <= i < |messages| ensures messages[i].id in IdsOf(before) + {m.id} {
        if i < |before| { assert before[i].id == messages[i].id; }
      }
      forall i | 0 <= i < |before| ensures before[i].id in IdsOf(messages) { assert messages[i].id == before[i].id; }
      assert messages[|before|].id == m.id;
    }
  }

  // ---------------------------------------------------------------- parent chains

  /** The parent that the walk follows: an empty id does not count as one. */
  function ParentOf(byId: map<string, Message>, id: string): Option<string> {
    if id in byId && byId[id].parentId.Some? && byId[id].parentId.value != "" then byId[id].parentId else None
  }

  /** The n-th ancestor, or none if the chain ends before. */
  function Ancestor(byId: map<string, Message>, id: string, n: nat): Option<string>
    decreases n
  {
    if n == 0 then Some(id)
    else match ParentOf(byId, id) case None => None case Some(p) => Ancestor(byId, p, n - 1)
  }

  /** The parent chain ends at a root. */
  ghost predicate Rooted(byId: map<string, Message>, id: string) {
    exists n: nat :: Ancestor(byId, id, n).None?
  }

  /** The message is its own ancestor. */
  ghost predicate OnCycle(byId: map<string, Message>, id: string) {
    exists n: nat :: n >= 1 && Ancestor(byId, id, n) == Some(id)
  }

  ghost predicate Forest(byId: map<string, Message>) {
    forall id :: id in byId ==> Rooted(byId, id)
  }

  ghost predicate Cyclic(byId: map<string, Message>) {
    exists id :: id in byId && OnCycle(byId, id)
  }

  lemma {:induction false} AncestorAdds(byId: map<string, Message>, id: string, m: nat, n: nat)
    ensures Ancestor(byId, id, m + n) ==
      match Ancestor(byId, id, m) case None => None case Some(a) => Ancestor(byId, a, n)
    decreases m
  {
    if m > 0 && ParentOf(byId, id).Some? {
      AncestorAdds(byId, ParentOf(byId, id).value, m - 1, n);
    }
  }

  lemma {:induction false} CycleGoesOn(byId: map<string, Message>, id: string, k: nat, n: nat)
    requires k >= 1 && Ancestor(byId, id, k) == Some(id)
    ensures Ancestor(byId, id, n).Some?
    decreases n
  {
    if n < k {
      AncestorAdds(byId, id, n, k - n);
    } else {
      AncestorAdds(byId, id, k, n - k);
      CycleGoesOn(byId, id, k, n - k);
    }
  }

  /** A message on a cycle has no root. */
  lemma {:induction false} CycleUnrooted(byId: map<string, Message>, id: string)
    requires OnCycle(byId, id)
    ensures !Rooted(byId, id)
  {
    var k: nat :| k >= 1 && Ancestor(byId, id, k) == Some(id);
    forall n: nat ensures Ancestor(byId, id, n).Some? { CycleGoesOn(byId, id, k, n); }
  }

  lemma {:induction false} RootedParent(byId: map<string, Message>, id: string)
    ensures Rooted(byId, id) <==> ParentOf(byId, id).None? || Rooted(byId, ParentOf(byId, id).value)
  {
    match ParentOf(byId, id)
    case None =>
      assert Ancestor(byId, id, 1).None?;
    case Some(p) =>
      forall n: nat ensures Ancestor(byId, id, n + 1) == Ancestor(byId, p, n) {}
      if Rooted(byId, id) {
        var n: nat :| Ancestor(byId, id, n).None?;
        assert n >= 1 && Ancestor(byId, p, n - 1).None?;
      }
      if Rooted(byId, p) {
        var n: nat :| Ancestor(byId, p, n).None?;
        assert Ancestor(byId, id, n + 1).None?;
      }
  }

  // ---------------------------------------------------------------- the walk

  /** The walk's two sets: messages that are done, and those on the way to the present one. */
  class Walk {
    const byId: map<string, Message>
    var seen: set<string>
    var visiting: set<string>

    constructor (byId: map<string, Message>)
      ensures this.byId == byId && seen == {} && visiting == {}
    {
      this.byId := byId;
      seen, visiting := {}, {};
    }

    /** Whatever is done has a root. */
    ghost predicate Valid()
      reads this
    {
      visiting <= byId.Keys && forall id :: id in seen ==> Rooted(byId, id)
    }

    /** The present message is an ancestor of everything on the way. */
    ghost predicate OnTheWay(id: string)
      reads this
    {
      forall v :: v in visiting ==> exists n: nat :: n >= 1 && Ancestor(byId, v, n) == Some(id)
    }

    /** Follows the parents of a message. It stops at a message that is done, and fails at one that it
        is already visiting, which is then its own ancestor. */
    method Visit(id: string) returns (ok: bool)
      requires Valid() && OnTheWay(id) && id in byId
      requires forall m :: m in byId && ParentOf(byId, m).Some? ==> ParentOf(byId, m).value in byId
      modifies this`seen, this`visiting
      ensures ok ==> Valid() && visiting == old(visiting) && seen >= old(seen) + {id}
      ensures !ok ==> Cyclic(byId)
      decreases byId.Keys - visiting
    {
      if id in seen {
        return true;
      }
      if id in visiting {
        assert OnCycle(byId, id);
        return false;
      }
      visiting := visiting + {id};
      var parent := ParentOf(byId, id);
      RootedParent(byId, id);
      if parent.Some? {
        assert OnTheWay(parent.value) by {
          forall v | v in visiting ensures exists n: nat :: n >= 1 && Ancestor(byId, v, n) == Some(parent.value) {
            assert Ancestor(byId, id, 1) == parent;
            if v != id {
              var n: nat :| n >= 1 && Ancestor(byId, v, n) == Some(id);
              AncestorAdds(byId, v, n, 1);
              assert Ancestor(byId, v, n + 1) == Some(parent.value);
            }
          }
        }
        ok := Visit(parent.value);
        if !ok {
          return false;
        }
      }
      visiting := visiting - {id};
      seen := seen + {id};
      ok := true;
    }
  }

  datatype Verdict = Accepted | Duplicate | Dangling | Cycle

  method HasDangling(messages: seq<Message>, ids: set<string>) returns (dangling: bool)
    requires ids == IdsOf(messages)
    ensures dangling <==> !NoDangling(messages)
  {
    for i := 0 to |messages|
      invariant forall k :: 0 <= k < i && messages[k].parentId.Some? ==> messages[k].parentId.value in ids
    {
      if messages[i].parentId.Some? && messages[i].parentId.value !in ids {
        return true;
      }
    }
    return false;
  }

  lemma {:induction false} IdsNext(before: seq<Message>, m: Message)
    ensures IdsOf(before + [m]) == IdsOf(before) + {m.id}
  {
    var more := before + [m];
    assert more[|before|] == m && forall i :: 0 <= i < |before| ==> more[i] == before[i];
    forall i | 0 <= i < |before| ensures before[i].id in IdsOf(more) { assert more[i].id == before[i].id; }
    assert more[|before|].id in IdsOf(more);
  }

  lemma {:induction false} DistinctNext(before: seq<Message>, m: Message)
    ensures DistinctIds(before + [m]) <==> DistinctIds(before) && m.id !in IdsOf(before)
  {
    var more := before + [m];
    assert more[|before|] == m && forall i :: 0 <= i < |before| ==> more[i] == before[i];
    forall i | 0 <= i < |before| ensures before[i].id in IdsOf(before) {}
    if DistinctIds(more) {
      forall i | 0 <= i < |before| ensures before[i].id != m.id { assert more[i].id != more[|before|].id; }
    }
  }

  lemma {:induction false} CountIds(messages: seq<Message>)
    ensures |IdsOf(messages)| <= |messages| && (|IdsOf(messages)| == |messages| <==> DistinctIds(messages))
  {
    if messages != [] {
      var before, m := messages[..|messages| - 1], messages[|messages| - 1];
      assert messages == before + [m];
      CountIds(before);
      IdsNext(before, m);
      DistinctNext(before, m);
    }
  }

  lemma {:induction false} ParentsKnown(messages: seq<Message>)
    requires NoDangling(messages)
    ensures forall m :: m in ById(messages) && ParentOf(ById(messages), m).Some? ==>
      ParentOf(ById(messages), m).value in ById(messages)
  {
    ByIdKeys(messages);
    var byId := ById(messages);
    forall m | m in byId && ParentOf(byId, m).Some? ensures ParentOf(byId, m).value in byId {
      var i :| 0 <= i < |messages| && messages[i] == byId[m];
    }
  }

  method VisitAll(messages: seq<Message>, byId: map<string, Message>) returns (forest: bool)
    requires byId.Keys == IdsOf(messages)
    requires forall m :: m in byId && ParentOf(byId, m).Some? ==> ParentOf(byId, m).value in byId
    ensures forest ==> Forest(byId)
    ensures !forest ==> Cyclic(byId)
  {
    var walk := new Walk(byId);
    for i := 0 to |messages|
      invariant walk.Valid() && walk.visiting == {} && walk.byId == byId
      invariant forall k :: 0 <= k < i ==> messages[k].id in walk.seen
    {
      assert messages[i].id in IdsOf(messages);
      var ok := walk.Visit(messages[i].id);
      if !ok {
        return false;
      }
    }
    forall id | id in byId ensures Rooted(byId, id) {
      var k :| 0 <= k < |messages| && messages[k].id == id;
    }
    return true;
  }

  /** A finite, closed set of messages has a cycle exactly when some parent chain has no end; so the
      conversation is accepted exactly when its messages form a forest. */
  method CheckMessages(messages: seq<Message>) returns (verdict: Verdict)
    ensures verdict.Duplicate? <==> !DistinctIds(messages)
    ensures verdict.Dangling? <==> DistinctIds(messages) && !NoDangling(messages)
    ensures verdict.Cycle? <==> DistinctIds(messages) && NoDangling(messages) && Cyclic(ById(messages))
    ensures verdict.Accepted? <==> DistinctIds(messages) && NoDangling(messages) && Forest(ById(messages))
  {
    CountIds(messages);
    var idSet := IdsOf(messages);
    if |idSet| != |messages| {
      return Duplicate;
    }
    var dangling := HasDangling(messages, idSet);
    if dangling {
      return Dangling;
    }
    ByIdKeys(messages);
    ParentsKnown(messages);
    ForestIsAcyclic(ById(messages));
    var forest := VisitAll(messages, ById(messages));
    return if forest then Accepted else Cycle;
  }

  lemma {:induction false} CyclicIsNoForest(byId: map<string, Message>)
    requires Cyclic(byId)
    ensures !Forest(byId)
  {
    var id :| id in byId && OnCycle(byId, id);
    CycleUnrooted(byId, id);
  }

  lemma {:induction false} ForestIsAcyclic(byId: map<string, Message>)
    ensures Forest(byId) ==> !Cyclic(byId)
  {
    if Cyclic(byId) {
      CyclicIsNoForest(byId);
    }
  }
}
