/** The wait task as an object whose methods run under its mutex. */
module WaitTasks {
  import opened Base
  import opened Records
  import opened ObjMetadataSets
  import opened WaitSpec
  import opened InventoryManager
  import opened TaskContexts

  /** All the ids meet the condition, on information no older than the apply. */
  method ConditionsMet(tc: TaskContext, ids: seq<ObjMetadata>, cond: Condition) returns (b: bool)
    requires tc.manager.Valid()
    ensures b <==> forall id :: id in ids ==> ConditionMet(tc.manager.Contents(), tc.cache, id, cond)
  {
    for i := 0 to |ids|
      invariant forall k :: 0 <= k < i ==> ConditionMet(tc.manager.Contents(), tc.cache, ids[k], cond)
    {
      var cached := Get(tc.cache, ids[i]);
      if cached.status != (if cond == AllCurrent then CurrentStatus else NotFoundStatus) {
        assert !ConditionMet(tc.manager.Contents(), tc.cache, ids[i], cond);
        return false;
      }
      var at := tc.manager.ObjectStatus(ids[i]);
      var applyGen := if at.Some? then tc.manager.statuses[at.value].record.generation else 0;
      var cachedGen := 0;
      if cached.resource.Some? {
        cachedGen := cached.resource.value.generation;
      }
      if cachedGen < applyGen {
        assert !ConditionMet(tc.manager.Contents(), tc.cache, ids[i], cond);
        return false;
      }
    }
    b := true;
  }

  class WaitTask {
    const ids: seq<ObjMetadata>
    const cond: Condition
    var pending: seq<ObjMetadata>
    var failed: seq<ObjMetadata>
    var ctx: Ctx

    constructor (ids: seq<ObjMetadata>, cond: Condition)
      ensures this.ids == ids && this.cond == cond && pending == [] && failed == [] && ctx == Live
    {
      this.ids, this.cond, pending, failed, ctx := ids, cond, [], [], Live;
    }

    /** The task's state together with what it shares. */
    ghost function View(tc: TaskContext): Wait
      reads this, tc, tc.manager
    {
      Wait(tc.manager.Contents(), pending, failed, tc.waits, ctx)
    }

    /** Sets a reconcile status, which only works for a known id, and sends the event either way. */
    method Mark(tc: TaskContext, id: ObjMetadata, r: Reconcile)
      requires tc.manager.Valid()
      modifies tc`waits, tc.manager
      ensures tc.manager.Valid() && View(tc) == WaitSpec.Mark(old(View(tc)), id, r)
    {
      var known := tc.manager.SetReconcileStatus(id, r);
      tc.waits := tc.waits + [WaitEvent(id, r)];
    }

    method Skipped(tc: TaskContext, id: ObjMetadata) returns (b: bool)
      requires tc.manager.Valid()
      ensures b <==> SkippedBefore(tc.manager.Contents(), cond, id)
    {
      var failedApply := tc.manager.IsActuated(id, ApplyStrategy, Failed);
      var skippedApply := tc.manager.IsActuated(id, ApplyStrategy, Actuation.Skipped);
      if (cond == AllCurrent && failedApply) || skippedApply {
        return true;
      }
      var failedDelete := tc.manager.IsActuated(id, DeleteStrategy, Failed);
      var skippedDelete := tc.manager.IsActuated(id, DeleteStrategy, Actuation.Skipped);
      b := (cond == AllNotFound && failedDelete) || skippedDelete;
    }

    method ChangedUID(tc: TaskContext, id: ObjMetadata) returns (b: bool)
      requires tc.manager.Valid()
      ensures b <==> WaitSpec.ChangedUID(tc.manager.Contents(), tc.cache, id)
    {
      var at := tc.manager.ObjectStatus(id);
      if at.None? {
        return false;
      }
      var oldUID := tc.manager.statuses[at.value].record.uid;
      if oldUID == "" {
        return false;
      }
      var cached := Get(tc.cache, id);
      if cached.resource.None? {
        return false;
      }
      var newUID := cached.resource.value.uid;
      if newUID == "" {
        return false;
      }
      b := oldUID != newUID;
    }

    method ReconciledByID(tc: TaskContext, id: ObjMetadata) returns (b: bool)
      requires tc.manager.Valid()
      ensures b <==> ConditionMet(tc.manager.Contents(), tc.cache, id, cond)
    {
      b := ConditionsMet(tc, [id], cond);
    }

    method HandleChangedUID(tc: TaskContext, id: ObjMetadata)
      requires tc.manager.Valid()
      modifies tc`waits, tc.manager
      ensures tc.manager.Valid() && View(tc) == WaitSpec.HandleChangedUID(old(View(tc)), cond, id)
    {
      if cond == AllNotFound {
        Mark(tc, id, ReconcileSucceeded);
      } else {
        Mark(tc, id, ReconcileFailed);
      }
    }

    /** One id of startInner's loop; pending ids are gathered in a local list. */
    method StartId(tc: TaskContext, id: ObjMetadata, gathered: seq<ObjMetadata>) returns (pending': seq<ObjMetadata>)
      requires tc.manager.Valid()
      modifies tc`waits, tc.manager
      ensures tc.manager.Valid()
      ensures View(tc).(pending := pending') == StartOne(old(View(tc)).(pending := gathered), cond, tc.cache, id)
    {
      hide SkippedBefore, WaitSpec.ChangedUID, ConditionMet;
      pending' := gathered;
      var skipped := Skipped(tc, id);
      if skipped {
        Mark(tc, id, ReconcileSkipped);
        return;
      }
      var changed := ChangedUID(tc, id);
      if changed {
        HandleChangedUID(tc, id);
        return;
      }
      var reconciled := ReconciledByID(tc, id);
      if reconciled {
        Mark(tc, id, ReconcileSucceeded);
        return;
      }
      Mark(tc, id, ReconcilePending);
      pending' := gathered + [id];
    }

    method StartInner(tc: TaskContext)
      requires tc.manager.Valid()
      modifies this`pending, this`ctx, tc`waits, tc.manager
      ensures tc.manager.Valid() && View(tc) == Start(old(View(tc)), cond, tc.cache, ids)
    {
      var gathered := [];
      for i := 0 to |ids|
        invariant tc.manager.Valid()
        invariant pending == old(pending) && ctx == old(ctx) && failed == old(failed) && tc.cache == old(tc.cache)
        invariant View(tc).(pending := gathered) == StartAll(old(View(tc)).(pending := []), cond, tc.cache, ids[..i])
      {
        assert ids[..i + 1][..i] == ids[..i];
        hide StartOne;
        gathered := StartId(tc, ids[i], gathered);
      }
      assert ids[..|ids|] == ids;
      pending := gathered;
      if |pending| == 0 {
        Cancel();
      }
    }

    /** Cancelling a context that is already done changes nothing. */
    method Cancel()
      modifies this`ctx
      ensures ctx == WaitSpec.Cancel(old(ctx))
    {
      if ctx == Live {
        ctx := Canceled;
      }
    }

    method SendTimeoutEvents(tc: TaskContext)
      requires tc.manager.Valid()
      modifies tc`waits, tc.manager
      ensures tc.manager.Valid() && View(tc) == WaitSpec.SendTimeoutEvents(old(View(tc)))
    {
      for i := 0 to |pending|
        invariant tc.manager.Valid() && tc.cache == old(tc.cache)
        invariant View(tc) == TimeoutAll(old(View(tc)), pending[..i])
      {
        assert pending[..i + 1][..i] == pending[..i];
        Mark(tc, pending[i], ReconcileTimeout);
      }
      assert pending[..|pending|] == pending;
    }

    method StatusOfPending(tc: TaskContext, id: ObjMetadata)
      requires tc.manager.Valid()
      modifies this, tc`waits, tc.manager
      ensures tc.manager.Valid() && View(tc) == UpdatePending(old(View(tc)), cond, tc.cache, id)
    {
      hide WaitSpec.ChangedUID, ConditionMet, Remove;
      var changed := ChangedUID(tc, id);
      if changed {
        HandleChangedUID(tc, id);
        pending := Remove(pending, id);
        return;
      }
      var reconciled := ReconciledByID(tc, id);
      if reconciled {
        pending := Remove(pending, id);
        Mark(tc, id, ReconcileSucceeded);
        return;
      }
      if Get(tc.cache, id).status == FailedStatus {
        pending := Remove(pending, id);
        failed := failed + [id];
        Mark(tc, id, ReconcileFailed);
      }
    }

    method StatusOfFailed(tc: TaskContext, id: ObjMetadata)
      requires tc.manager.Valid()
      modifies this, tc`waits, tc.manager
      ensures tc.manager.Valid() && View(tc) == UpdateFailed(old(View(tc)), cond, tc.cache, id)
    {
      hide ConditionMet, Remove;
      var reconciled := ReconciledByID(tc, id);
      if reconciled {
        failed := Remove(failed, id);
        Mark(tc, id, ReconcileSucceeded);
      } else if Get(tc.cache, id).status != FailedStatus {
        failed := Remove(failed, id);
        pending := pending + [id];
        Mark(tc, id, ReconcilePending);
      }
    }

    method StatusOfReconciled(tc: TaskContext, id: ObjMetadata)
      requires tc.manager.Valid()
      modifies this, tc`waits, tc.manager
      ensures tc.manager.Valid() && View(tc) == UpdateReconciled(old(View(tc)), cond, tc.cache, id)
    {
      hide ConditionMet;
      var reconciled := ReconciledByID(tc, id);
      if !reconciled {
        pending := pending + [id];
        Mark(tc, id, ReconcilePending);
      }
    }

    method StatusUpdate(tc: TaskContext, id: ObjMetadata)
      requires tc.manager.Valid()
      modifies this, tc`waits, tc.manager
      ensures tc.manager.Valid() && View(tc) == WaitSpec.StatusUpdate(old(View(tc)), ids, cond, tc.cache, id)
    {
      hide UpdatePending, UpdateFailed, UpdateReconciled, SkippedBefore;
      if id in pending {
        StatusOfPending(tc, id);
      } else if id !in ids {
        return;
      } else {
        var skipped := Skipped(tc, id);
        if skipped {
          return;
        } else if id in failed {
          StatusOfFailed(tc, id);
        } else {
          StatusOfReconciled(tc, id);
        }
      }
      if |pending| == 0 {
        Cancel();
      }
    }
  }
}
