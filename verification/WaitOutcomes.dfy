/** What each reconcile status rests on: when a wait task skips, settles, fails or keeps waiting for an object. */
module WaitOutcomes {
  import opened Base
  import opened Records
  import opened ObjMetadataSets
  import opened WaitSpec
  import opened WaitProofs

  /** The object was not actuated by the task before: skipped, or failed under the strategy waited for. */
  predicate PutAside(r: Record, cond: Condition) {
    || (r.actuation == Skipped && (r.strategy == ApplyStrategy || r.strategy == DeleteStrategy))
    || (r.actuation == Failed && cond == AllCurrent && r.strategy == ApplyStrategy)
    || (r.actuation == Failed && cond == AllNotFound && r.strategy == DeleteStrategy)
  }

  /** The watcher last saw another object under the same name. */
  predicate Recreated(r: Record, cache: Cache, id: ObjMetadata) {
    id in cache && Differs(r, cache[id])
  }

  /** Both UIDs are known and differ. */
  predicate Differs(r: Record, rs: ResourceStatus) {
    rs.resource.Some? && rs.resource.value.uid != "" && r.uid != "" && rs.resource.value.uid != r.uid
  }

  /** The watcher last saw what is waited for, on information no older than the record. */
  predicate Reached(r: Record, cache: Cache, cond: Condition, id: ObjMetadata) {
    id in cache && Meets(r, cache[id], cond)
  }

  /** Current (not found), at the recorded generation or a later one; without a resource the generation counts as 0. */
  predicate Meets(r: Record, rs: ResourceStatus, cond: Condition) {
    && (cond.AllCurrent? ==> rs.status.CurrentStatus?)
    && (cond.AllNotFound? ==> rs.status.NotFoundStatus?)
    && (rs.resource.Some? ==> rs.resource.value.generation >= r.generation)
    && (rs.resource.None? ==> 0 >= r.generation)
  }

  lemma SkippedIff(recs: RecordMap, cond: Condition, id: ObjMetadata)
    requires id in recs
    ensures SkippedBefore(recs, cond, id) <==> PutAside(recs[id], cond)
  {
  }

  lemma ChangedIff(recs: RecordMap, cache: Cache, id: ObjMetadata)
    requires id in recs
    ensures ChangedUID(recs, cache, id) <==> Recreated(recs[id], cache, id)
  {
  }

  lemma MetIff(recs: RecordMap, cache: Cache, cond: Condition, id: ObjMetadata)
    requires id in recs
    ensures ConditionMet(recs, cache, id, cond) <==> Reached(recs[id], cache, cond, id)
  {
  }

  // ---------- Starting ----------

  /** The status a wait task gives an object at its start. */
  ghost predicate StartedAs(r: Record, cache: Cache, cond: Condition, id: ObjMetadata, status: Reconcile) {
    && (status == ReconcileSkipped <==> PutAside(r, cond))
    && (status == ReconcileFailed <==> !PutAside(r, cond) && Recreated(r, cache, id) && cond == AllCurrent)
    && (status == ReconcileSucceeded <==>
      !PutAside(r, cond) && if Recreated(r, cache, id) then cond == AllNotFound else Reached(r, cache, cond, id))
    && (status == ReconcilePending <==>
      !PutAside(r, cond) && !Recreated(r, cache, id) && !Reached(r, cache, cond, id))
  }

  lemma StartOneOutcome(w: Wait, cond: Condition, cache: Cache, id: ObjMetadata)
    requires id in w.recs
    ensures var v := StartOne(w, cond, cache, id);
      && v.recs == w.recs[id := w.recs[id].(reconcile := v.recs[id].reconcile)]
      && StartedAs(w.recs[id], cache, cond, id, v.recs[id].reconcile)
      && v.pending == (if v.recs[id].reconcile == ReconcilePending then w.pending + [id] else w.pending)
      && v.log == w.log + [WaitEvent(id, v.recs[id].reconcile)]
  {
    SkippedIff(w.recs, cond, id);
    ChangedIff(w.recs, cache, id);
    MetIff(w.recs, cache, cond, id);
    hide SkippedBefore, ChangedUID, ConditionMet, PutAside, Recreated, Reached;
  }

  /** The four cases do not depend on the reconcile status there was before. */
  lemma StartedAsStable(r: Record, any: Reconcile, cache: Cache, cond: Condition, id: ObjMetadata, status: Reconcile)
    ensures StartedAs(r.(reconcile := any), cache, cond, id, status) <==> StartedAs(r, cache, cond, id, status)
  {
  }

  lemma {:induction false} StartAllOutcome(w: Wait, cond: Condition, cache: Cache, ids: seq<ObjMetadata>, id: ObjMetadata)
    requires id in ids && id in w.recs
    ensures var v := StartAll(w, cond, cache, ids);
      && id in v.recs && StartedAs(w.recs[id], cache, cond, id, v.recs[id].reconcile)
      && (v.recs[id].reconcile == ReconcilePending ==> id in v.pending)
  {
    var seen, last := ids[..|ids| - 1], ids[|ids| - 1];
    assert ids == seen + [last];
    var u := StartAll(w, cond, cache, seen);
    StartAllFrame(w, cond, cache, seen);
    assert id in u.recs && u.recs[id] == w.recs[id].(reconcile := u.recs[id].reconcile);
    hide StartOne, StartAll, StartedAs, OnlyReconcile;
    assert StartAll(w, cond, cache, ids) == StartOne(u, cond, cache, last) by { StartAllSnoc(w, cond, cache, ids); }
    if id == last {
      StartOneOutcome(u, cond, cache, id);
      StartedAsStable(w.recs[id], u.recs[id].reconcile, cache, cond, id, StartOne(u, cond, cache, id).recs[id].reconcile);
    } else {
      StartAllOutcome(w, cond, cache, seen, id);
      StartOneElsewhere(u, cond, cache, last, id);
    }
  }

  lemma StartAllSnoc(w: Wait, cond: Condition, cache: Cache, ids: seq<ObjMetadata>)
    requires ids != []
    ensures StartAll(w, cond, cache, ids) == StartOne(StartAll(w, cond, cache, ids[..|ids| - 1]), cond, cache, ids[|ids| - 1])
  {
    hide StartOne;
  }

  lemma StartOneElsewhere(w: Wait, cond: Condition, cache: Cache, last: ObjMetadata, id: ObjMetadata)
    requires id != last
    ensures var v := StartOne(w, cond, cache, last);
      && (id in v.recs <==> id in w.recs) && (id in w.recs ==> v.recs[id] == w.recs[id])
      && (id in v.pending <==> id in w.pending)
  {
    hide SkippedBefore, ChangedUID, ConditionMet;
  }

  /** Starting a wait task: an object is skipped exactly when it was not actuated; otherwise one that was recreated
      counts as deleted but not as applied; otherwise it is reconciled exactly when its last status is the awaited one
      at the recorded generation or later; and everything else is waited for. */
  lemma StartOutcome(w: Wait, cond: Condition, cache: Cache, ids: seq<ObjMetadata>, id: ObjMetadata)
    requires id in ids && id in w.recs
    ensures var v := Start(w, cond, cache, ids);
      && id in v.recs && v.recs[id] == w.recs[id].(reconcile := v.recs[id].reconcile)
      && StartedAs(w.recs[id], cache, cond, id, v.recs[id].reconcile)
      && (v.recs[id].reconcile == ReconcilePending ==> id in v.pending)
  {
    StartAllOutcome(w.(pending := []), cond, cache, ids, id);
    StartAllFrame(w.(pending := []), cond, cache, ids);
    hide StartAll, StartedAs;
  }

  // ---------- Status updates ----------

  /** The status of a pending object after an update for it. */
  ghost predicate PendingBecomes(r: Record, cache: Cache, cond: Condition, id: ObjMetadata, status: Reconcile) {
    if Recreated(r, cache, id) then status == (if cond == AllNotFound then ReconcileSucceeded else ReconcileFailed)
    else if Reached(r, cache, cond, id) then status == ReconcileSucceeded
    else if id in cache && cache[id].status == FailedStatus then status == ReconcileFailed
    else status == r.reconcile
  }

  lemma PendingOutcome(w: Wait, ids: seq<ObjMetadata>, cond: Condition, cache: Cache, id: ObjMetadata)
    requires Lists(w, ids) && id in w.pending && id in w.recs
    ensures var v := StatusUpdate(w, ids, cond, cache, id);
      && id in v.recs && v.recs == w.recs[id := w.recs[id].(reconcile := v.recs[id].reconcile)]
      && PendingBecomes(w.recs[id], cache, cond, id, v.recs[id].reconcile)
      && (id in v.pending <==>
        !Recreated(w.recs[id], cache, id) && !Reached(w.recs[id], cache, cond, id)
        && !(id in cache && cache[id].status == FailedStatus))
      && (id in v.failed <==>
        !Recreated(w.recs[id], cache, id) && !Reached(w.recs[id], cache, cond, id)
        && id in cache && cache[id].status == FailedStatus)
  {
    ChangedIff(w.recs, cache, id);
    MetIff(w.recs, cache, cond, id);
    RemoveIsDifference(w.pending, id);
    var v := UpdatePending(w, cond, cache, id);
    assert w.recs[id := w.recs[id]] == w.recs;
    assert id in v.failed ==> v.failed == w.failed + [id];
    hide ChangedUID, ConditionMet, Recreated, Reached, Remove;
  }

  lemma FailedOutcome(w: Wait, ids: seq<ObjMetadata>, cond: Condition, cache: Cache, id: ObjMetadata)
    requires Lists(w, ids) && id in w.failed && id in w.recs && !PutAside(w.recs[id], cond)
    ensures var v := StatusUpdate(w, ids, cond, cache, id);
      && id in v.recs && v.recs == w.recs[id := w.recs[id].(reconcile := v.recs[id].reconcile)]
      && v.recs[id].reconcile == (
        if Reached(w.recs[id], cache, cond, id) then ReconcileSucceeded
        else if id in cache && cache[id].status == FailedStatus then w.recs[id].reconcile
        else ReconcilePending)
      && (id in v.failed <==> !Reached(w.recs[id], cache, cond, id) && id in cache && cache[id].status == FailedStatus)
      && (id in v.pending <==> !Reached(w.recs[id], cache, cond, id) && !(id in cache && cache[id].status == FailedStatus))
  {
    SkippedIff(w.recs, cond, id);
    MetIff(w.recs, cache, cond, id);
    RemoveIsDifference(w.failed, id);
    assert w.recs[id := w.recs[id]] == w.recs;
    assert id !in w.pending;
    hide SkippedBefore, ConditionMet, PutAside, Reached, Remove;
  }

  lemma SettledOutcome(w: Wait, ids: seq<ObjMetadata>, cond: Condition, cache: Cache, id: ObjMetadata)
    requires id in ids && id !in w.pending && id !in w.failed && id in w.recs && !PutAside(w.recs[id], cond)
    ensures var v := StatusUpdate(w, ids, cond, cache, id);
      && id in v.recs && v.recs == w.recs[id := w.recs[id].(reconcile := v.recs[id].reconcile)]
      && v.recs[id].reconcile == (if Reached(w.recs[id], cache, cond, id) then w.recs[id].reconcile else ReconcilePending)
      && (id in v.pending <==> !Reached(w.recs[id], cache, cond, id)) && id !in v.failed
  {
    SkippedIff(w.recs, cond, id);
    MetIff(w.recs, cache, cond, id);
    assert w.recs[id := w.recs[id]] == w.recs;
    hide SkippedBefore, ConditionMet, PutAside, Reached;
  }

  /** Updates for other objects, and for objects that were not actuated, are ignored. */
  lemma IgnoredOutcome(w: Wait, ids: seq<ObjMetadata>, cond: Condition, cache: Cache, id: ObjMetadata)
    requires id !in w.pending && (id !in ids || (id in w.recs && PutAside(w.recs[id], cond)))
    ensures StatusUpdate(w, ids, cond, cache, id) == w
  {
    if id in w.recs {
      SkippedIff(w.recs, cond, id);
    }
    hide SkippedBefore, PutAside;
  }

  /** An update for a known object of the task.  A pending one settles exactly when it was recreated (after a delete)
      or its last status is the awaited one at the recorded generation or later; it fails when it was recreated (after an
      apply) or is reported failed.  A failed one settles on the awaited status, and is waited for again on any other
      status but a failure.  A settled one is waited for again unless the awaited status still holds.  An object
      that was not actuated stays as it is.  No other record changes. */
  lemma UpdateOutcome(w: Wait, ids: seq<ObjMetadata>, cond: Condition, cache: Cache, id: ObjMetadata)
    requires Lists(w, ids) && id in ids && id in w.recs
    ensures var r, v := w.recs[id], StatusUpdate(w, ids, cond, cache, id);
      var reportedFailed := id in cache && cache[id].status == FailedStatus;
      && id in v.recs && v.recs == w.recs[id := r.(reconcile := v.recs[id].reconcile)]
      && v.recs[id].reconcile == (
        if id in w.pending then
          if Recreated(r, cache, id) then (if cond == AllNotFound then ReconcileSucceeded else ReconcileFailed)
          else if Reached(r, cache, cond, id) then ReconcileSucceeded
          else if reportedFailed then ReconcileFailed
          else r.reconcile
        else if PutAside(r, cond) then r.reconcile
        else if id in w.failed then
          if Reached(r, cache, cond, id) then ReconcileSucceeded
          else if reportedFailed then r.reconcile
          else ReconcilePending
        else if Reached(r, cache, cond, id) then r.reconcile
        else ReconcilePending)
  {
    if id in w.pending {
      PendingOutcome(w, ids, cond, cache, id);
    } else if PutAside(w.recs[id], cond) {
      IgnoredOutcome(w, ids, cond, cache, id);
      assert w.recs[id := w.recs[id]] == w.recs;
    } else if id in w.failed {
      FailedOutcome(w, ids, cond, cache, id);
    } else {
      SettledOutcome(w, ids, cond, cache, id);
    }
    hide StatusUpdate, Recreated, Reached, PutAside;
  }

  /** The task stops itself as soon as an update it heeds leaves nothing pending, and not before. */
  lemma StopsWhenNothingPending(w: Wait, ids: seq<ObjMetadata>, cond: Condition, cache: Cache, id: ObjMetadata)
    requires id in ids && id in w.recs && (id in w.pending || !PutAside(w.recs[id], cond)) && w.ctx == Live
    ensures var v := StatusUpdate(w, ids, cond, cache, id); v.ctx == if v.pending == [] then Canceled else Live
  {
    SkippedIff(w.recs, cond, id);
    hide ChangedUID, ConditionMet, SkippedBefore, PutAside, Remove;
  }
}
