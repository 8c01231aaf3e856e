/** The kernel's object stores and their transactions, proved against the store functions that the
    host's state machine uses. */
module KernelStorage {
  import opened Options
  import opened Lists
  import opened Kernel

  /** The key and value of one put. */
  datatype Entry<V> = Entry(key: string, value: V)

  /** A record of the modules projection; `body` stands for all but its id. */
  datatype ModuleRecord = ModuleRecord(id: string, body: string)

  const moduleId: ModuleRecord -> string := (m: ModuleRecord) => m.id

  function EntriesOf<V>(values: seq<V>, idOf: V -> string): seq<Entry<V>> {
    seq(|values|, i requires 0 <= i < |values| => Entry(idOf(values[i]), values[i]))
  }

  /** The projection builders: entries need a key, and one of their own. */
  method ProjectionEntries<V>(values: seq<V>, idOf: V -> string) returns (entries: Option<seq<Entry<V>>>)
    ensures entries == if Keyable(values, idOf) then Some(EntriesOf(values, idOf)) else None
  {
    var keys := KeyList(values, idOf);
    var named := (i: int) => 0 <= i < |keys| && keys[i] != "";
    var ok := EachOnce(keys, named);
    assert forall i :: 0 <= i < |values| ==> (named(i) <==> idOf(values[i]) != "");
    return if ok then Some(EntriesOf(values, idOf)) else None;
  }

  /** clear() and put(): what a store holds after it is replaced by the entries, in order. */
  method ReplaceStore<V>(ghost values: seq<V>, ghost idOf: V -> string, entries: seq<Entry<V>>)
      returns (target: map<string, V>)
    requires entries == EntriesOf(values, idOf)
    ensures target == ByKey(values, idOf)
  {
    target := map[];
    for i := 0 to |entries|
      invariant target == ByKey(values[..i], idOf)
    {
      PutNext(values, idOf, entries, i);
      target := target[entries[i].key := entries[i].value];
    }
    assert values[..|entries|] == values;
  }

  lemma {:induction false} PutNext<V>(values: seq<V>, idOf: V -> string, entries: seq<Entry<V>>, i: nat)
    requires entries == EntriesOf(values, idOf) && i < |entries|
    ensures ByKey(values[..i + 1], idOf) == ByKey(values[..i], idOf)[entries[i].key := entries[i].value]
  {
    OneMore(values, i);
    ByKeyNext(values[..i], values[i], idOf);
  }

  class KernelDatabase {
    var global: Option<Global>
    var contexts: map<string, Context>
    var prepared: map<string, Pending>
    var apps: map<string, App>
    var grants: map<string, Grant>
    var modules: map<string, ModuleRecord>

    /** The stores that the host's state machine knows. */
    ghost function Contents(): Stores
      reads this
    {
      Stores(global, contexts, prepared, apps, grants)
    }

    constructor ()
      ensures Contents() == Stores(None, map[], map[], map[], map[]) && modules == map[]
    {
      global, contexts, prepared, apps, grants, modules := None, map[], map[], map[], map[], map[];
    }

    /** prepareKernelRequest. */
    method PutPrepared(requestId: string, pending: Pending, diskOk: bool) returns (ok: bool)
      modifies this`prepared
      ensures ok == diskOk
      ensures Contents() == if ok then PrepareStores(old(Contents()), requestId, pending) else old(Contents())
    {
      ok := diskOk;
      if ok {
        prepared := prepared[requestId := pending];
      }
    }

    /** abortKernelRequest. */
    method AbortPrepared(requestId: string, diskOk: bool) returns (ok: bool)
      modifies this`prepared
      ensures ok == diskOk
      ensures Contents() == if ok then AbortStores(old(Contents()), requestId) else old(Contents())
    {
      ok := diskOk;
      if ok {
        prepared := prepared - {requestId};
      }
    }

    /** Replaces the envelope with its projections, or changes nothing. The modules and the grants are
        left alone unless they are given. The host gives the approvals and grants of the envelope. */
    method ReplaceGlobalStores(g: Global, installed: seq<App>, records: Option<seq<ModuleRecord>>,
                               granted: Option<seq<Grant>>, diskOk: bool) returns (ok: bool)
      modifies this`global, this`apps, this`grants, this`modules
      ensures ok <==>
        && diskOk && Keyable(installed, appId)
        && (records.Some? ==> Keyable(records.value, moduleId)) && (granted.Some? ==> Keyable(granted.value, grantId))
      ensures !ok ==> Contents() == old(Contents()) && modules == old(modules)
      ensures ok ==> global == Some(g) && apps == ByKey(installed, appId)
      ensures ok ==> grants == if granted.Some? then ByKey(granted.value, grantId) else old(grants)
      ensures ok ==> modules == if records.Some? then ByKey(records.value, moduleId) else old(modules)
      ensures installed == g.installed && granted == g.grants && granted.Some? && records.None? ==>
        && (ok <==> diskOk && Projects(g))
        && Contents() == if ok then ReplaceGlobal(old(Contents()), g) else old(Contents())
    {
      var appEntries := ProjectionEntries(installed, appId);
      var moduleEntries := ProjectionEntries(if records.Some? then records.value else [], moduleId);
      var grantEntries := ProjectionEntries(if granted.Some? then granted.value else [], grantId);
      if appEntries.None? || moduleEntries.None? || grantEntries.None? || !diskOk {
        return false;
      }
      global := Some(g);
      apps := ReplaceStore(installed, appId, appEntries.value);
      if records.Some? {
        modules := ReplaceStore(records.value, moduleId, moduleEntries.value);
      }
      if granted.Some? {
        grants := ReplaceStore(granted.value, grantId, grantEntries.value);
      }
      return true;
    }

    /** Commits a dispatch in one transaction: envelope, context, projections, and the removal of the
        prepared record; or changes nothing. */
    method CommitTransition(g: Global, client: string, c: Context, requestId: string, installed: seq<App>,
                            records: Option<seq<ModuleRecord>>, granted: Option<seq<Grant>>,
                                diskOk: bool) returns (ok: bool)
      modifies this
      ensures ok <==>
        && diskOk && Keyable(installed, appId)
        && (records.Some? ==> Keyable(records.value, moduleId)) && (granted.Some? ==> Keyable(granted.value, grantId))
      ensures !ok ==> Contents() == old(Contents()) && modules == old(modules)
      ensures ok ==> global == Some(g) && apps == ByKey(installed, appId)
      ensures ok ==> contexts == old(contexts)[client := c] && prepared == old(prepared) - {requestId}
      ensures ok ==> grants == if granted.Some? then ByKey(granted.value, grantId) else old(grants)
      ensures ok ==> modules == if records.Some? then ByKey(records.value, moduleId) else old(modules)
      ensures installed == g.installed && granted == g.grants && granted.Some? && records.None? ==>
        && (ok <==> diskOk && Projects(g))
        && Contents() == if ok then CommitStores(old(Contents()), g, client, c, requestId) else old(Contents())
    {
      ok := ReplaceGlobalStores(g, installed, records, granted, diskOk);
      if ok {
        contexts := contexts[client := c];
        prepared := prepared - {requestId};
      }
    }
  }
}
