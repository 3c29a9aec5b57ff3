/** The data section of a ConfigMap inventory: one key per reference, its status as the value. */
module DataMaps {
  import opened Base
  import opened Records
  import opened ObjMetadataSets
  import opened InventoryManager
  import opened InventoryKeys

  /** The part of a status that is stored. */
  datatype Stored = Stored(strategy: Strategy, actuation: Actuation, reconcile: Reconcile)

  const ZERO := Stored(UnknownStrategy, UnknownActuation, UnknownReconcile)

  /** The JSON library: whatever it writes it reads back, and only the zero value is written as {}. */
  datatype Json = Json(encode: Stored -> string, decode: string -> Option<Stored>)

  ghost predicate Lawful(json: Json) {
    forall s :: json.decode(json.encode(s)) == Some(s) && json.encode(s) != "" && (json.encode(s) == "{}" ==> s == ZERO)
  }

  function FormatStatus(json: Json, s: Stored): string {
    if json.encode(s) == "{}" then "" else json.encode(s)
  }

  function ParseStatus(json: Json, text: string): Option<Stored> {
    if text == "" then Some(ZERO) else json.decode(text)
  }

  lemma StatusRoundTrip(json: Json, s: Stored)
    requires Lawful(json)
    ensures ParseStatus(json, FormatStatus(json, s)) == Some(s)
  {
  }

  // ---------- Building ----------

  /** The status kept for each id; the last one listed wins. */
  function StatusMap(statuses: seq<Entry>): map<ObjMetadata, Stored> {
    if statuses == [] then map[]
    else
      var s := statuses[|statuses| - 1];
      StatusMap(statuses[..|statuses| - 1])[s.ref := Stored(s.record.strategy, s.record.actuation, s.record.reconcile)]
  }

  predicate Keeps(s: Stored, e: Entry) {
    s.strategy == e.record.strategy && s.actuation == e.record.actuation && s.reconcile == e.record.reconcile
  }

  /** The i-th status is the last one listed for id. */
  ghost predicate LastStatus(statuses: seq<Entry>, id: ObjMetadata, i: int) {
    0 <= i < |statuses| && statuses[i].ref == id && forall j :: i < j < |statuses| ==> statuses[j].ref != id
  }

  /** An id has a stored status exactly when one is listed; it is the strategy, actuation and reconcile status of the last one. */
  lemma {:induction false} StatusMapExactly(statuses: seq<Entry>, id: ObjMetadata)
    ensures id in StatusMap(statuses) <==> exists i :: 0 <= i < |statuses| && statuses[i].ref == id
    ensures forall i :: LastStatus(statuses, id, i) ==> id in StatusMap(statuses) && Keeps(StatusMap(statuses)[id], statuses[i])
  {
    if statuses != [] {
      var n := |statuses| - 1;
      var front := statuses[..n];
      StatusMapExactly(front, id);
      assert statuses == front + [statuses[n]];
      forall i | LastStatus(statuses, id, i) ensures i == n || LastStatus(front, id, i) {
        if i < n {
          assert front[i] == statuses[i];
          assert forall j :: i < j < n ==> front[j] == statuses[j];
        }
      }
      if statuses[n].ref == id {
        assert forall i :: LastStatus(statuses, id, i) ==> i == n;
      }
    }
  }

  function ValueFor(json: Json, known: map<ObjMetadata, Stored>, enabled: bool, id: ObjMetadata): string {
    if enabled && id in known then FormatStatus(json, known[id]) else ""
  }

  function DataOf(json: Json, refs: seq<ObjMetadata>, known: map<ObjMetadata, Stored>, enabled: bool): map<string, string> {
    if refs == [] then map[]
    else
      var id := refs[|refs| - 1];
      DataOf(json, refs[..|refs| - 1], known, enabled)[ToKey(id) := ValueFor(json, known, enabled, id)]
  }

  method BuildDataMap(json: Json, refs: seq<ObjMetadata>, statuses: seq<Entry>, enabled: bool) returns (data: map<string, string>)
    ensures data == DataOf(json, refs, StatusMap(statuses), enabled)
  {
    hide ToKey, ValueFor;
    var known := map[];
    if enabled {
      for i := 0 to |statuses|
        invariant known == StatusMap(statuses[..i])
      {
        assert statuses[..i + 1][..i] == statuses[..i];
        var r := statuses[i].record;
        known := known[statuses[i].ref := Stored(r.strategy, r.actuation, r.reconcile)];
      }
      assert statuses[..|statuses|] == statuses;
    }
    data := map[];
    for i := 0 to |refs|
      invariant data == DataOf(json, refs[..i], known, enabled)
    {
      assert refs[..i + 1][..i] == refs[..i];
      var value := ValueFor(json, known, enabled, refs[i]);
      data := data[ToKey(refs[i]) := value];
    }
    assert refs[..|refs|] == refs;
    if !enabled {
      DisabledIgnores(json, refs, known, StatusMap(statuses));
    }
  }

  lemma {:induction false} DisabledIgnores(json: Json, refs: seq<ObjMetadata>, a: map<ObjMetadata, Stored>, b: map<ObjMetadata, Stored>)
    ensures DataOf(json, refs, a, false) == DataOf(json, refs, b, false)
  {
    hide ToKey;
    if refs != [] {
      DisabledIgnores(json, refs[..|refs| - 1], a, b);
    }
  }

  // ---------- Parsing ----------

  datatype Entries = Entries(refs: seq<ObjMetadata>, statuses: seq<(ObjMetadata, Stored)>)

  predicate KeyOk(json: Json, data: map<string, string>, enabled: bool, key: string)
    requires key in data
  {
    ParseKey(key).Ok? && (enabled ==> ParseStatus(json, data[key]).Some?)
  }

  /** The entries are the parsed keys and values, in some order of the keys. */
  ghost predicate Reads(json: Json, data: map<string, string>, enabled: bool, keys: seq<string>, e: Entries) {
    && |e.refs| == |keys| && |e.statuses| == (if enabled then |keys| else 0)
    && forall k :: 0 <= k < |keys| ==>
      && keys[k] in data && ParseKey(keys[k]) == Ok(e.refs[k])
      && (enabled ==> e.statuses[k].0 == e.refs[k] && ParseStatus(json, data[keys[k]]) == Some(e.statuses[k].1))
  }

  /** Reads one more entry. */
  function Append(e: Entries, enabled: bool, id: ObjMetadata, status: Stored): Entries {
    Entries(e.refs + [id], if enabled then e.statuses + [(id, status)] else e.statuses)
  }

  method ParseEntry(json: Json, data: map<string, string>, enabled: bool, key: string) returns (ok: bool, id: ObjMetadata, status: Stored)
    requires key in data
    ensures ok <==> KeyOk(json, data, enabled, key)
    ensures ok ==> ParseKey(key) == Ok(id) && (enabled ==> ParseStatus(json, data[key]) == Some(status))
  {
    hide ParseKey, ParseStatus;
    ok, id, status := false, ObjMetadata("", "", GroupKind("", "")), ZERO;
    match ParseKey(key)
    case Err(_) =>
    case Ok(parsed) =>
      id := parsed;
      if !enabled {
        ok := true;
        return;
      }
      match ParseStatus(json, data[key])
      case None =>
      case Some(s) => ok, status := true, s;
  }

  lemma ReadsNil(json: Json, data: map<string, string>, enabled: bool)
    ensures Reads(json, data, enabled, [], Entries([], []))
  {
  }

  lemma ReadsSnoc(json: Json, data: map<string, string>, enabled: bool, keys: seq<string>, e: Entries, key: string, id: ObjMetadata, status: Stored)
    requires Reads(json, data, enabled, keys, e) && key in data && ParseKey(key) == Ok(id)
    requires enabled ==> ParseStatus(json, data[key]) == Some(status)
    ensures Reads(json, data, enabled, keys + [key], Append(e, enabled, id, status))
  {
    hide ParseKey, ParseStatus;
  }

  /** Reads the entries for the keys in the order given. */
  method ParseKeys(json: Json, data: map<string, string>, enabled: bool, keys: seq<string>) returns (r: Option<Entries>)
    requires forall k :: 0 <= k < |keys| ==> keys[k] in data
    ensures r.Some? <==> forall k :: 0 <= k < |keys| ==> KeyOk(json, data, enabled, keys[k])
    ensures r.Some? ==> Reads(json, data, enabled, keys, r.value)
  {
    hide *;
    var e := Entries([], []);
    ReadsNil(json, data, enabled);
    assert keys[..0] == [];
    for i := 0 to |keys|
      invariant Reads(json, data, enabled, keys[..i], e)
      invariant forall k :: 0 <= k < i ==> KeyOk(json, data, enabled, keys[k])
    {
      var ok, id, status := ParseEntry(json, data, enabled, keys[i]);
      if !ok {
        return None;
      }
      ReadsSnoc(json, data, enabled, keys[..i], e, keys[i], id, status);
      assert keys[..i] + [keys[i]] == keys[..i + 1];
      e := Append(e, enabled, id, status);
    }
    assert keys[..|keys|] == keys;
    r := Some(e);
  }

  /** Reads the map in whatever order it yields its keys; fails exactly when some key or value does not parse. */
  method ParseDataMap(json: Json, data: map<string, string>, enabled: bool) returns (r: Option<Entries>, ghost keys: seq<string>)
    ensures r.Some? <==> forall key :: key in data ==> KeyOk(json, data, enabled, key)
    ensures r.Some? ==> NoDup(keys) && ToSet(keys) == data.Keys && Reads(json, data, enabled, keys, r.value)
  {
    hide Reads, KeyOk, NoDup;
    var order := ListSet(data.Keys);
    assert forall k :: 0 <= k < |order| ==> order[k] in ToSet(order);
    assert forall key :: key in ToSet(order) ==> exists k :: 0 <= k < |order| && order[k] == key;
    hide ToSet;
    keys := order;
    r := ParseKeys(json, data, enabled, order);
  }

  // ---------- Round trip ----------

  ghost predicate AllClean(refs: seq<ObjMetadata>) {
    forall id :: id in refs ==> Clean(id)
  }

  lemma {:induction false} DataFacts(json: Json, refs: seq<ObjMetadata>, known: map<ObjMetadata, Stored>, enabled: bool)
    requires AllClean(refs)
    ensures forall key :: key in DataOf(json, refs, known, enabled) <==> exists id :: id in refs && ToKey(id) == key
    ensures forall id :: id in refs ==> ToKey(id) in DataOf(json, refs, known, enabled)
    ensures forall id :: id in refs ==> DataOf(json, refs, known, enabled)[ToKey(id)] == ValueFor(json, known, enabled, id)
  {
    hide ToKey, ValueFor, Clean;
    if refs != [] {
      var front, last := refs[..|refs| - 1], refs[|refs| - 1];
      assert forall id :: id in refs <==> id in front || id == last by {
        assert refs == front + [last];
      }
      DataFacts(json, front, known, enabled);
      forall id | id in refs ensures ToKey(id) == ToKey(last) ==> id == last {
        KeysDiffer(id, last);
      }
    }
  }

  /** What the stored value for id means once read back. */
  function Recovered(known: map<ObjMetadata, Stored>, enabled: bool, id: ObjMetadata): Stored {
    if enabled && id in known then known[id] else ZERO
  }

  lemma ValueBack(json: Json, known: map<ObjMetadata, Stored>, enabled: bool, id: ObjMetadata)
    requires Lawful(json)
    ensures ParseStatus(json, ValueFor(json, known, enabled, id)) == Some(Recovered(known, enabled, id))
  {
    if enabled && id in known {
      StatusRoundTrip(json, known[id]);
    }
  }

  /** One entry that is read back is one reference that was stored, with its status. */
  lemma EntryBack(json: Json, refs: seq<ObjMetadata>, known: map<ObjMetadata, Stored>, enabled: bool, key: string)
    requires Lawful(json) && AllClean(refs) && key in DataOf(json, refs, known, enabled)
    ensures ParseKey(key).Ok? && ParseKey(key).value in refs && ToKey(ParseKey(key).value) == key
    ensures ParseStatus(json, DataOf(json, refs, known, enabled)[key]) == Some(Recovered(known, enabled, ParseKey(key).value))
  {
    DataFacts(json, refs, known, enabled);
    hide ToKey, ParseKey, ValueFor, ParseStatus, DataOf, Lawful, Recovered;
    var id :| id in refs && ToKey(id) == key;
    CleanRoundTrip(id);
    ValueBack(json, known, enabled, id);
  }

  lemma EntriesDistinct(json: Json, data: map<string, string>, enabled: bool, keys: seq<string>, e: Entries)
    requires NoDup(keys) && Reads(json, data, enabled, keys, e)
    requires forall k :: 0 <= k < |keys| ==> ToKey(e.refs[k]) == keys[k]
    ensures NoDup(e.refs)
  {
    hide ToKey, ParseKey;
    forall i, j | 0 <= i < j < |e.refs| ensures e.refs[i] != e.refs[j] {
      assert keys[i] != keys[j];
    }
  }

  /** Storing and reloading an inventory whose references contain no underscore neither loses, merges nor invents
      a reference, and brings back each one's strategy, actuation and reconcile status (or none). */
  lemma StoreAndReload(json: Json, refs: seq<ObjMetadata>, statuses: seq<Entry>, enabled: bool, keys: seq<string>, e: Entries)
    requires Lawful(json) && AllClean(refs)
    requires var data := DataOf(json, refs, StatusMap(statuses), enabled);
      NoDup(keys) && ToSet(keys) == data.Keys && Reads(json, data, enabled, keys, e)
    ensures NoDup(e.refs) && ToSet(e.refs) == ToSet(refs)
    ensures enabled ==> |e.statuses| == |e.refs|
    ensures enabled ==> forall k :: 0 <= k < |e.refs| ==> e.statuses[k] == (e.refs[k], Recovered(StatusMap(statuses), true, e.refs[k]))
  {
    var known := StatusMap(statuses);
    var data := DataOf(json, refs, known, enabled);
    DataFacts(json, refs, known, enabled);
    hide ToKey, ParseKey, ValueFor, ParseStatus, StatusMap, DataOf, Lawful, Recovered, Clean;
    forall k | 0 <= k < |keys|
      ensures e.refs[k] in refs && ToKey(e.refs[k]) == keys[k]
      ensures enabled ==> e.statuses[k] == (e.refs[k], Recovered(known, enabled, e.refs[k]))
    {
      assert keys[k] in ToSet(keys);
      EntryBack(json, refs, known, enabled, keys[k]);
    }
    EntriesDistinct(json, data, enabled, keys, e);
    forall id | id in refs ensures id in e.refs {
      assert ToKey(id) in ToSet(keys);
      var k :| 0 <= k < |keys| && keys[k] == ToKey(id);
      CleanRoundTrip(id);
      assert e.refs[k] == id;
    }
  }

  /** And reading back what was stored never fails. */
  lemma ReloadSucceeds(json: Json, refs: seq<ObjMetadata>, statuses: seq<Entry>, enabled: bool, key: string)
    requires Lawful(json) && AllClean(refs) && key in DataOf(json, refs, StatusMap(statuses), enabled)
    ensures KeyOk(json, DataOf(json, refs, StatusMap(statuses), enabled), enabled, key)
  {
    EntryBack(json, refs, StatusMap(statuses), enabled, key);
  }
}
