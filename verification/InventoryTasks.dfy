/** The first and the last task: what the inventory object in memory and in the cluster become. */
module InventoryTasks {
  import opened Base
  import opened Records
  import opened Objects
  import opened ObjMetadataSets
  import opened Engine
  import opened InventoryManager
  import opened TaskContexts

  /** The inventory object in memory; both tasks hold the same one. */
  class Inventory {
    var refs: seq<ObjMetadata>
    var statuses: seq<Entry>

    constructor (refs: seq<ObjMetadata>)
      ensures this.refs == refs && statuses == []
    {
      this.refs, statuses := refs, [];
    }
  }

  /** The inventory as stored in the cluster. */
  datatype Snapshot = Snapshot(refs: seq<ObjMetadata>, statuses: seq<Entry>)

  class Store {
    var snapshot: Option<Snapshot>

    constructor ()
      ensures snapshot == None
    {
      snapshot := None;
    }

    ghost function Stored(): Option<set<ObjMetadata>>
      reads this
    {
      if snapshot.Some? then Some(ToSet(snapshot.value.refs)) else None
    }

    /** A write that reports success took effect; one that reports failure may have. */
    method CreateOrUpdate(inv: Inventory, env: InvEnv) returns (failed: bool)
      modifies this
      ensures failed == !env.writeOk
      ensures snapshot == if env.writeOk || env.landed then Some(Snapshot(inv.refs, inv.statuses)) else old(snapshot)
    {
      if env.writeOk || env.landed {
        snapshot := Some(Snapshot(inv.refs, inv.statuses));
      }
      failed := !env.writeOk;
    }

    method Delete(env: InvEnv) returns (failed: bool)
      modifies this
      ensures failed == !env.writeOk
      ensures snapshot == if env.writeOk || env.landed then None else old(snapshot)
    {
      if env.writeOk || env.landed {
        snapshot := None;
      }
      failed := !env.writeOk;
    }
  }

  // ---------- Extending the inventory ----------

  /** Every reference gets a pending status; those about to be pruned are marked for deletion. */
  method GetObjStatus(pruneIds: seq<ObjMetadata>, unionIds: seq<ObjMetadata>) returns (statuses: seq<Entry>)
    ensures Refs(statuses) == unionIds
    ensures forall k :: 0 <= k < |unionIds| ==>
      statuses[k].record == NewRecord(if unionIds[k] in pruneIds then DeleteStrategy else ApplyStrategy, Pending)
  {
    var pruneMap := {};
    for i := 0 to |pruneIds|
      invariant pruneMap == ToSet(pruneIds[..i])
    {
      ToSetSnoc(pruneIds[..i + 1]);
      assert pruneIds[..i + 1][..i] == pruneIds[..i];
      pruneMap := pruneMap + {pruneIds[i]};
    }
    assert pruneIds[..|pruneIds|] == pruneIds;
    statuses := [];
    for i := 0 to |unionIds|
      invariant |statuses| == i
      invariant forall k :: 0 <= k < i ==> statuses[k].ref == unionIds[k]
      invariant forall k :: 0 <= k < i ==>
        statuses[k].record == NewRecord(if unionIds[k] in pruneIds then DeleteStrategy else ApplyStrategy, Pending)
    {
      var strategy := ApplyStrategy;
      if unionIds[i] in pruneMap {
        strategy := DeleteStrategy;
      }
      statuses := statuses + [Entry(unionIds[i], NewRecord(strategy, Pending))];
    }
  }

  /** Each stored status agrees with the records the builder registers for the ids it plans. */
  ghost predicate StatusesPlanned(inv: Inventory, applyIds: set<ObjMetadata>)
    reads inv
  {
    && Refs(inv.statuses) == inv.refs
    && forall k :: 0 <= k < |inv.statuses| ==>
      inv.statuses[k].record == NewRecord(if inv.refs[k] in applyIds then ApplyStrategy else DeleteStrategy, Pending)
  }

  class InvAddTask {
    const inv: Inventory
    const objs: seq<Unstructured>
    const dryRun: bool

    constructor (inv: Inventory, objs: seq<Unstructured>, dryRun: bool)
      ensures this.inv == inv && this.objs == objs && this.dryRun == dryRun
    {
      this.inv, this.objs, this.dryRun := inv, objs, dryRun;
    }

    /** Merges the objects about to be applied into the inventory and stores it before anything is applied. */
    method Start(store: Store, env: InvEnv) returns (failed: bool)
      modifies inv, store
      ensures !env.precheckOk ==> failed && inv.refs == old(inv.refs) && store.snapshot == old(store.snapshot)
      ensures env.precheckOk ==>
        && NoDup(inv.refs) && ToSet(inv.refs) == old(ToSet(inv.refs)) + ToSet(Ids(objs))
        && StatusesPlanned(inv, ToSet(Ids(objs)))
        && (dryRun ==> !failed && store.snapshot == old(store.snapshot))
        && (!dryRun ==>
          && failed == !env.writeOk
          && store.Stored() == if env.writeOk || env.landed then Some(ToSet(inv.refs)) else old(store.Stored()))
    {
      if !env.precheckOk {
        return true;
      }
      var current := Ids(objs);
      var union := Union(inv.refs, current);
      var prune := Diff(inv.refs, current);
      PruneMembers(inv.refs, current, union, prune);
      inv.refs := union;
      inv.statuses := GetObjStatus(prune, union);
      failed := false;
      if !dryRun {
        failed := store.CreateOrUpdate(inv, env);
      }
    }
  }

  lemma PruneMembers(refs: seq<ObjMetadata>, current: seq<ObjMetadata>, union: seq<ObjMetadata>, prune: seq<ObjMetadata>)
    requires ToSet(union) == ToSet(refs) + ToSet(current) && ToSet(prune) == ToSet(refs) - ToSet(current)
    ensures forall k :: 0 <= k < |union| ==> (union[k] in prune <==> union[k] !in ToSet(current))
  {
    forall k | 0 <= k < |union| ensures union[k] in prune <==> union[k] !in ToSet(current) {
      assert union[k] in ToSet(union);
      assert union[k] in prune <==> union[k] in ToSet(prune);
    }
  }

  // ---------- The final inventory ----------

  class DeleteOrUpdateInvTask {
    const inv: Inventory
    const dryRun: bool
    const destroy: bool

    constructor (inv: Inventory, dryRun: bool, destroy: bool)
      ensures this.inv == inv && this.dryRun == dryRun && this.destroy == destroy
    {
      this.inv, this.dryRun, this.destroy := inv, dryRun, destroy;
    }

    /** No failed delete, no failed or timed-out wait. */
    method DestroySuccessful(manager: Manager) returns (ok: bool)
      requires manager.Valid()
      ensures ok <==> Engine.DestroySuccessful(manager.Contents())
    {
      var failedDeletes := manager.ObjectsWithActuationStatus(DeleteStrategy, Failed);
      NoneListed(failedDeletes);
      if |failedDeletes| > 0 {
        return false;
      }
      var failedReconciles := manager.ObjectsWithReconcileStatus(ReconcileFailed);
      NoneListed(failedReconciles);
      if |failedReconciles| > 0 {
        return false;
      }
      var timeouts := manager.ObjectsWithReconcileStatus(ReconcileTimeout);
      NoneListed(timeouts);
      ok := |timeouts| == 0;
    }

    /** Adds the ids of a list that were referenced before. */
    method Retain(kept: seq<ObjMetadata>, ids: seq<ObjMetadata>) returns (r: seq<ObjMetadata>)
      ensures ToSet(r) == ToSet(kept) + ToSet(inv.refs) * ToSet(ids) && NoDup(r)
    {
      var some := Intersection(inv.refs, ids);
      r := Union(kept, some);
    }

    method RetainActuated(manager: Manager, kept: seq<ObjMetadata>, strategy: Strategy, actuation: Actuation)
      returns (r: seq<ObjMetadata>)
      requires manager.Valid()
      ensures ToSet(r) == ToSet(kept) + ToSet(inv.refs) * WithActuation(manager.Contents(), strategy, actuation)
    {
      var ids := manager.ObjectsWithActuationStatus(strategy, actuation);
      r := Retain(kept, ids);
    }

    method RetainReconcile(manager: Manager, kept: seq<ObjMetadata>, reconcile: Reconcile) returns (r: seq<ObjMetadata>)
      requires manager.Valid()
      ensures ToSet(r) == ToSet(kept) + ToSet(inv.refs) * WithReconcile(manager.Contents(), reconcile)
    {
      var ids := manager.ObjectsWithReconcileStatus(reconcile);
      r := Retain(kept, ids);
    }

    /** The references to keep, computed list by list. */
    method KeptRefs(tc: TaskContext) returns (kept: seq<ObjMetadata>)
      requires tc.manager.Valid()
      ensures NoDup(kept)
      ensures ToSet(kept) == FinalRefs(tc.manager.Contents(), ToSet(inv.refs), tc.abandoned, tc.invalid)
    {
      hide ToSet, WithActuation, WithReconcile, NoDup;
      var m := tc.manager;
      kept := m.ObjectsWithActuationStatus(ApplyStrategy, Succeeded);
      kept := RetainActuated(m, kept, ApplyStrategy, Failed);
      kept := RetainActuated(m, kept, ApplyStrategy, Skipped);
      kept := RetainActuated(m, kept, DeleteStrategy, Failed);
      kept := RetainActuated(m, kept, DeleteStrategy, Skipped);
      kept := RetainReconcile(m, kept, ReconcileFailed);
      kept := RetainReconcile(m, kept, ReconcileTimeout);
      var abandoned := tc.AbandonedObjects();
      kept := Diff(kept, abandoned);
      var invalid := tc.InvalidObjects();
      kept := Retain(kept, invalid);
    }

    method UpdateInventory(tc: TaskContext, store: Store, env: InvEnv) returns (failed: bool)
      requires tc.manager.Valid()
      modifies inv, store
      ensures dryRun ==> !failed && inv.refs == old(inv.refs) && store.snapshot == old(store.snapshot)
      ensures !dryRun ==>
        && ToSet(inv.refs) == FinalRefs(tc.manager.Contents(), old(ToSet(inv.refs)), tc.abandoned, tc.invalid)
        && NoDup(inv.refs) && inv.statuses == tc.manager.statuses && failed == !env.writeOk
        && store.Stored() == if env.writeOk || env.landed then Some(ToSet(inv.refs)) else old(store.Stored())
    {
      hide FinalRefs;
      var kept := KeptRefs(tc);
      if dryRun {
        return false;
      }
      inv.refs := kept;
      inv.statuses := tc.manager.statuses;
      failed := store.CreateOrUpdate(inv, env);
    }

    /** Deletes the inventory when destroying went well, else stores the references to keep. */
    method Start(tc: TaskContext, store: Store, env: InvEnv) returns (failed: bool)
      requires tc.manager.Valid()
      modifies inv, store
      ensures dryRun ==> !failed && store.snapshot == old(store.snapshot)
      ensures !dryRun ==>
        var refs := FinalRefs(tc.manager.Contents(), old(ToSet(inv.refs)), tc.abandoned, tc.invalid);
        var stored := if destroy && Engine.DestroySuccessful(tc.manager.Contents()) then None else Some(refs);
        && failed == !env.writeOk
        && store.Stored() == if env.writeOk || env.landed then stored else old(store.Stored())
    {
      hide FinalRefs, Engine.DestroySuccessful;
      if destroy {
        var ok := DestroySuccessful(tc.manager);
        if ok {
          failed := false;
          if !dryRun {
            failed := store.Delete(env);
          }
          return;
        }
      }
      failed := UpdateInventory(tc, store, env);
    }
  }

  lemma NoneListed(ids: seq<ObjMetadata>)
    ensures |ids| == 0 <==> ToSet(ids) == {}
  {
    assert |ids| > 0 ==> ids[0] in ToSet(ids);
  }
}
