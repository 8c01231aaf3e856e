/** Batches of signed records for a Hestia server: what orderSyncEntries accepts, and what it
    returns. */
module Sync {
  import opened Options
  import opened Json
  import opened Chain
  import opened Sorting

  datatype SyncAction = SyncAction(id: Text, root: Text, signature: Text)

  datatype SyncInclusion = SyncInclusion(
    chainId: Text, keyId: Text, sequence: int, previousHash: Text, actionRoot: Text, eventHash: Text, signature: Text)

  datatype Entry = Entry(action: SyncAction, inclusion: SyncInclusion)

  const MAX_SAFE_INTEGER := 9007199254740991

  /** A signed action with the signed inclusion that names it. */
  predicate ValidEntry(e: Entry) {
    && e.action.id != [] && e.action.root != [] && e.action.signature != []
    && e.inclusion.chainId != [] && e.inclusion.keyId != [] && 1 <= e.inclusion.sequence <= MAX_SAFE_INTEGER
    && e.inclusion.previousHash != [] && e.inclusion.eventHash != [] && e.inclusion.signature != []
    && e.inclusion.actionRoot == e.action.root
  }

  predicate Follows(e: Entry, previous: Entry) {
    && e.inclusion.chainId == previous.inclusion.chainId && e.inclusion.keyId == previous.inclusion.keyId
    && e.inclusion.sequence == previous.inclusion.sequence + 1
    && e.inclusion.previousHash == previous.inclusion.eventHash
  }

  /** One contiguous, linked segment of a chain, with distinct records. */
  ghost predicate Segment(s: seq<Entry>) {
    && (forall i :: 0 <= i < |s| ==> ValidEntry(s[i]))
    && (forall i :: 1 <= i < |s| ==> Follows(s[i], s[i - 1]))
    && (forall i, j :: 0 <= i < j < |s| ==>
          s[i].inclusion.eventHash != s[j].inclusion.eventHash && s[i].action.root != s[j].action.root)
    && (s != [] && s[0].inclusion.sequence == 1 ==> s[0].inclusion.previousHash == ZeroHash())
  }

  const bySequence: Entry -> int := (e: Entry) => e.inclusion.sequence

  lemma {:induction false} SegmentSequence(s: seq<Entry>, i: nat)
    requires Segment(s) && i < |s|
    ensures s[i].inclusion.sequence == s[0].inclusion.sequence + i
  {
    if i > 0 {
      SegmentSequence(s, i - 1);
      assert Follows(s[i], s[i - 1]);
    }
  }

  lemma SegmentStrict(s: seq<Entry>)
    requires Segment(s)
    ensures Strictly(s, bySequence)
  {
    forall i | 0 <= i < |s| ensures s[i].inclusion.sequence == s[0].inclusion.sequence + i {
      SegmentSequence(s, i);
    }
  }

  ghost predicate AllValid(entries: seq<Entry>) {
    forall i :: 0 <= i < |entries| ==> ValidEntry(entries[i])
  }

  lemma ValidSorted(entries: seq<Entry>)
    ensures AllValid(entries) <==> AllValid(SortBy(entries, bySequence))
  {
    var sorted := SortBy(entries, bySequence);
    SortElements(entries, bySequence);
    forall e ensures e in entries <==> e in sorted {
      assert e in entries <==> e in multiset(entries);
      assert e in sorted <==> e in multiset(sorted);
    }
    if AllValid(entries) {
      forall i | 0 <= i < |sorted| ensures ValidEntry(sorted[i]) {
        assert sorted[i] in entries;
      }
    }
    if AllValid(sorted) {
      forall i | 0 <= i < |entries| ensures ValidEntry(entries[i]) {
        assert entries[i] in sorted;
      }
    }
  }

  method ValidateEntries(entries: seq<Entry>) returns (ok: bool)
    ensures ok <==> AllValid(entries)
  {
    for i := 0 to |entries|
      invariant forall k :: 0 <= k < i ==> ValidEntry(entries[k])
    {
      if !ValidEntry(entries[i]) {
        return false;
      }
    }
    return true;
  }

  /** Walks the sorted batch with the hashes and roots seen so far. */
  method CheckSegment(sorted: seq<Entry>) returns (ok: bool)
    requires AllValid(sorted)
    ensures ok <==> Segment(sorted)
  {
    var eventHashes: set<Text> := {};
    var actionRoots: set<Text> := {};
    for i := 0 to |sorted|
      invariant eventHashes == set k | 0 <= k < i :: sorted[k].inclusion.eventHash
      invariant actionRoots == set k | 0 <= k < i :: sorted[k].action.root
      invariant forall k, j :: 0 <= k < j < i ==>
        sorted[k].inclusion.eventHash != sorted[j].inclusion.eventHash && sorted[k].action.root != sorted[j].action.root
      invariant forall k :: 1 <= k < i ==> Follows(sorted[k], sorted[k - 1])
    {
      var entry := sorted[i];
      if entry.inclusion.eventHash in eventHashes || entry.action.root in actionRoots {
        return false;
      }
      eventHashes := eventHashes + {entry.inclusion.eventHash};
      actionRoots := actionRoots + {entry.action.root};
      if i > 0 && !Follows(entry, sorted[i - 1]) {
        return false;
      }
    }
    return !(sorted != [] && sorted[0].inclusion.sequence == 1 && sorted[0].inclusion.previousHash != ZeroHash());
  }

  /** The entries come back in the order of the chain, or the batch is refused: it is accepted
      exactly when its entries, sorted, form one segment. */
  method OrderSyncEntries(entries: seq<Entry>) returns (ordered: Option<seq<Entry>>)
    ensures ordered.Some? <==> Segment(SortBy(entries, bySequence))
    ensures ordered.Some? ==> ordered.value == SortBy(entries, bySequence)
  {
    ValidSorted(entries);
    var valid := ValidateEntries(entries);
    if !valid {
      return None;
    }
    var sorted := SortBy(entries, bySequence);
    var ok := CheckSegment(sorted);
    return if ok then Some(sorted) else None;
  }

  /** Every permutation of a segment is put back into that segment. */
  lemma OrderingReturns(s: seq<Entry>, entries: seq<Entry>)
    requires Segment(s) && multiset(s) == multiset(entries)
    ensures SortBy(entries, bySequence) == s
  {
    SegmentStrict(s);
    SortUnique(s, entries, bySequence);
  }

  /** Acceptance does not depend on the order of the batch: it is accepted exactly when its entries
      can be arranged as one segment. */
  lemma OrderingCanonical(entries: seq<Entry>)
    ensures Segment(SortBy(entries, bySequence)) <==> exists s :: Segment(s) && multiset(s) == multiset(entries)
  {
    SortElements(entries, bySequence);
    forall s | Segment(s) && multiset(s) == multiset(entries)
      ensures SortBy(entries, bySequence) == s
    {
      OrderingReturns(s, entries);
    }
  }

  /** Any part of a segment is a segment, save that it need not start at the zero hash. */
  lemma SegmentPart(s: seq<Entry>, from: nat)
    requires Segment(s) && from <= |s|
    ensures Segment(s[from..])
  {
    if from < |s| {
      SegmentSequence(s, from);
    }
    assert forall i :: 0 <= i < |s[from..]| ==> s[from..][i] == s[from + i];
  }
}
