/** The in-memory inventory: a list of object statuses that means a map from id to record. */
module InventoryManager {
  import opened Base
  import opened Records
  import opened ObjMetadataSets

  datatype Entry = Entry(ref: ObjMetadata, record: Record)

  function Refs(l: seq<Entry>): (r: seq<ObjMetadata>)
    ensures |r| == |l| && forall i :: 0 <= i < |l| ==> r[i] == l[i].ref
  {
    seq(|l|, i requires 0 <= i < |l| => l[i].ref)
  }

  /** What the list means. */
  ghost function MapOf(l: seq<Entry>): RecordMap {
    if l == [] then map[] else MapOf(l[..|l| - 1])[l[|l| - 1].ref := l[|l| - 1].record]
  }

  lemma {:induction false} MapKeys(l: seq<Entry>)
    ensures MapOf(l).Keys == ToSet(Refs(l))
  {
    if l != [] {
      MapKeys(l[..|l| - 1]);
      assert Refs(l)[..|l| - 1] == Refs(l[..|l| - 1]);
      ToSetSnoc(Refs(l));
    }
  }

  /** A scan's next entry: new to the map so far. */
  lemma MapNext(l: seq<Entry>, i: nat)
    requires NoDup(Refs(l)) && i < |l|
    ensures MapOf(l[..i + 1]) == MapOf(l[..i])[l[i].ref := l[i].record]
    ensures l[i].ref !in MapOf(l[..i])
  {
    assert l[..i + 1][..i] == l[..i];
    MapKeys(l[..i]);
    assert Refs(l[..i]) == Refs(l)[..i];
    assert forall k :: 0 <= k < i ==> Refs(l)[k] != Refs(l)[i];
  }

  lemma {:induction false} MapAt(l: seq<Entry>, i: nat)
    requires NoDup(Refs(l)) && i < |l|
    ensures l[i].ref in MapOf(l) && MapOf(l)[l[i].ref] == l[i].record
  {
    if i < |l| - 1 {
      assert Refs(l[..|l| - 1]) == Refs(l)[..|l| - 1];
      MapAt(l[..|l| - 1], i);
      assert Refs(l)[i] != Refs(l)[|l| - 1];
    }
  }

  lemma {:induction false} MapReplace(l: seq<Entry>, i: nat, s: Entry)
    requires NoDup(Refs(l)) && i < |l| && l[i].ref == s.ref
    ensures NoDup(Refs(l[i := s])) && MapOf(l[i := s]) == MapOf(l)[s.ref := s.record]
  {
    var t, n := l[i := s], |l| - 1;
    assert Refs(t) == Refs(l);
    if i < n {
      assert Refs(l[..n]) == Refs(l)[..n];
      MapReplace(l[..n], i, s);
      assert t[..n] == l[..n][i := s];
      assert Refs(l)[i] != Refs(l)[n];
    } else {
      assert t[..n] == l[..n];
    }
  }

  lemma MapAppend(l: seq<Entry>, s: Entry)
    requires NoDup(Refs(l)) && s.ref !in Refs(l)
    ensures NoDup(Refs(l + [s])) && MapOf(l + [s]) == MapOf(l)[s.ref := s.record]
  {
    assert Refs(l + [s]) == Refs(l) + [s.ref];
    assert (l + [s])[..|l|] == l;
  }

  /** An id without a record joins the ids of its own kind. */
  lemma IdsNext(m: RecordMap, id: ObjMetadata, r: Record, strategy: Strategy, actuation: Actuation, reconcile: Reconcile)
    requires id !in m
    ensures WithActuation(m[id := r], strategy, actuation) ==
      WithActuation(m, strategy, actuation) + if r.strategy == strategy && r.actuation == actuation then {id} else {}
    ensures WithReconcile(m[id := r], reconcile) == WithReconcile(m, reconcile) + if r.reconcile == reconcile then {id} else {}
    ensures id !in WithActuation(m, strategy, actuation) && id !in WithReconcile(m, reconcile)
  {
  }

  lemma ListNext<T>(ids: seq<T>, id: T)
    requires NoDup(ids) && id !in ToSet(ids)
    ensures NoDup(ids + [id]) && ToSet(ids + [id]) == ToSet(ids) + {id}
  {
    ToSetSnoc(ids + [id]);
  }

  /** An id without a record adds at most its own UID. */
  lemma UIDsNext(m: RecordMap, id: ObjMetadata, r: Record)
    requires id !in m
    ensures AppliedUIDs(m[id := r]) ==
      AppliedUIDs(m) + if r.strategy == ApplyStrategy && r.actuation == Succeeded && r.uid != "" then {r.uid} else {}
  {
    var n := m[id := r];
    forall u | u in AppliedUIDs(m) ensures u in AppliedUIDs(n) {
      var x :| x in m && m[x].strategy == ApplyStrategy && m[x].actuation == Succeeded && m[x].uid != "" && m[x].uid == u;
      assert n[x].uid == u;
    }
    if r.strategy == ApplyStrategy && r.actuation == Succeeded && r.uid != "" {
      assert n[id].uid in AppliedUIDs(n);
    }
  }

  class Manager {
    var statuses: seq<Entry>

    ghost predicate Valid()
      reads this
    {
      NoDup(Refs(statuses))
    }

    /** What the list means. */
    ghost function Contents(): RecordMap
      reads this
    {
      MapOf(statuses)
    }

    constructor ()
      ensures Valid() && Contents() == map[]
    {
      statuses := [];
    }

    /** The position of the record for id: the place it can be updated in. */
    method ObjectStatus(id: ObjMetadata) returns (at: Option<nat>)
      requires Valid()
      ensures at.None? <==> id !in Contents()
      ensures at.Some? ==> at.value < |statuses| && statuses[at.value].ref == id && Contents()[id] == statuses[at.value].record
    {
      for i := 0 to |statuses|
        invariant id !in Refs(statuses)[..i]
      {
        if statuses[i].ref == id {
          MapAt(statuses, i);
          return Some(i);
        }
      }
      assert Refs(statuses)[..|statuses|] == Refs(statuses);
      MapKeys(statuses);
      at := None;
    }

    /** Adds the record, or replaces the one with the same id. */
    method SetObjectStatus(status: Entry)
      requires Valid()
      modifies this
      ensures Valid() && Contents() == old(Contents())[status.ref := status.record]
    {
      for i := 0 to |statuses|
        invariant statuses == old(statuses)
        invariant status.ref !in Refs(statuses)[..i]
      {
        if statuses[i].ref == status.ref {
          MapReplace(statuses, i, status);
          statuses := statuses[i := status];
          return;
        }
      }
      assert Refs(statuses)[..|statuses|] == Refs(statuses);
      MapAppend(statuses, status);
      statuses := statuses + [status];
    }

    method Add(id: ObjMetadata, strategy: Strategy, actuation: Actuation)
      requires Valid()
      modifies this
      ensures Valid() && Contents() == old(Contents())[id := NewRecord(strategy, actuation)]
    {
      SetObjectStatus(Entry(id, NewRecord(strategy, actuation)));
    }

    method AddSuccessfulApply(id: ObjMetadata, uid: string, gen: int)
      requires Valid()
      modifies this
      ensures Valid() && Contents() == old(Contents())[id := Record(ApplyStrategy, Succeeded, ReconcilePending, uid, gen)]
    {
      SetObjectStatus(Entry(id, Record(ApplyStrategy, Succeeded, ReconcilePending, uid, gen)));
    }

    method AddSuccessfulDelete(id: ObjMetadata, uid: string)
      requires Valid()
      modifies this
      ensures Valid() && Contents() == old(Contents())[id := Record(DeleteStrategy, Succeeded, ReconcilePending, uid, 0)]
    {
      SetObjectStatus(Entry(id, Record(DeleteStrategy, Succeeded, ReconcilePending, uid, 0)));
    }

    /** The Set*Reconcile family: an unknown id is reported and nothing changes. */
    method SetReconcileStatus(id: ObjMetadata, r: Reconcile) returns (known: bool)
      requires Valid()
      modifies this
      ensures Valid() && Contents() == SetReconcile(old(Contents()), id, r)
      ensures known <==> id in old(Contents())
    {
      var at := ObjectStatus(id);
      if at.None? {
        return false;
      }
      var status := statuses[at.value];
      var updated := status.(record := status.record.(reconcile := r));
      MapReplace(statuses, at.value, updated);
      statuses := statuses[at.value := updated];
      known := true;
    }

    /** The Is* family on actuation. */
    method IsActuated(id: ObjMetadata, strategy: Strategy, actuation: Actuation) returns (b: bool)
      requires Valid()
      ensures b <==> Is(Contents(), id, strategy, actuation)
    {
      var at := ObjectStatus(id);
      b := at.Some? && statuses[at.value].record.strategy == strategy && statuses[at.value].record.actuation == actuation;
    }

    method ObjectsWithActuationStatus(strategy: Strategy, actuation: Actuation) returns (ids: seq<ObjMetadata>)
      requires Valid()
      ensures NoDup(ids) && ToSet(ids) == WithActuation(Contents(), strategy, actuation)
    {
      ids := [];
      for i := 0 to |statuses|
        invariant NoDup(ids) && ToSet(ids) == WithActuation(MapOf(statuses[..i]), strategy, actuation)
      {
        MapNext(statuses, i);
        var status := statuses[i];
        IdsNext(MapOf(statuses[..i]), status.ref, status.record, strategy, actuation, ReconcilePending);
        hide MapOf, ToSet, NoDup, WithActuation;
        if status.record.strategy == strategy && status.record.actuation == actuation {
          ListNext(ids, status.ref);
          ids := ids + [status.ref];
        }
      }
      assert statuses[..|statuses|] == statuses;
    }

    method ObjectsWithReconcileStatus(r: Reconcile) returns (ids: seq<ObjMetadata>)
      requires Valid()
      ensures NoDup(ids) && ToSet(ids) == WithReconcile(Contents(), r)
    {
      ids := [];
      for i := 0 to |statuses|
        invariant NoDup(ids) && ToSet(ids) == WithReconcile(MapOf(statuses[..i]), r)
      {
        MapNext(statuses, i);
        var status := statuses[i];
        IdsNext(MapOf(statuses[..i]), status.ref, status.record, ApplyStrategy, Pending, r);
        hide MapOf, ToSet, NoDup, WithReconcile;
        if status.record.reconcile == r {
          ListNext(ids, status.ref);
          ids := ids + [status.ref];
        }
      }
      assert statuses[..|statuses|] == statuses;
    }

    method AppliedResourceUIDs() returns (uids: set<string>)
      requires Valid()
      ensures uids == AppliedUIDs(Contents())
    {
      uids := {};
      for i := 0 to |statuses|
        invariant uids == AppliedUIDs(MapOf(statuses[..i]))
      {
        MapNext(statuses, i);
        UIDsNext(MapOf(statuses[..i]), statuses[i].ref, statuses[i].record);
        if statuses[i].record.strategy == ApplyStrategy && statuses[i].record.actuation == Succeeded {
          if statuses[i].record.uid != "" {
            uids := uids + {statuses[i].record.uid};
          }
        }
      }
      assert statuses[..|statuses|] == statuses;
    }
  }
}
