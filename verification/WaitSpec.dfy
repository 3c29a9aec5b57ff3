/** What a wait task does, as functions on its state. */
module WaitSpec {
  import opened Base
  import opened Records
  import opened ObjMetadataSets

  datatype WaitEvent = WaitEvent(id: ObjMetadata, status: Reconcile)

  /** The task's context: running, cancelled (by itself or the runner), or past its deadline. */
  datatype Ctx = Live | Canceled | Expired

  datatype Wait = Wait(
    recs: RecordMap,
    pending: seq<ObjMetadata>,
    failed: seq<ObjMetadata>,
    log: seq<WaitEvent>,
    ctx: Ctx)

  /** Cancelling a context that is already done changes nothing. */
  function Cancel(ctx: Ctx): Ctx {
    if ctx == Live then Canceled else ctx
  }

  /** Record a reconcile status and announce it. */
  function Mark(w: Wait, id: ObjMetadata, r: Reconcile): Wait {
    w.(recs := SetReconcile(w.recs, id, r), log := w.log + [WaitEvent(id, r)])
  }

  /** The object failed or was skipped by the task before this one. */
  predicate SkippedBefore(recs: RecordMap, cond: Condition, id: ObjMetadata) {
    || (cond == AllCurrent && Is(recs, id, ApplyStrategy, Failed))
    || Is(recs, id, ApplyStrategy, Skipped)
    || (cond == AllNotFound && Is(recs, id, DeleteStrategy, Failed))
    || Is(recs, id, DeleteStrategy, Skipped)
  }

  /** Both UIDs are known and differ: the object was deleted and recreated. */
  predicate ChangedUID(recs: RecordMap, cache: Cache, id: ObjMetadata) {
    var cached := Get(cache, id);
    && id in recs && recs[id].uid != ""
    && cached.resource.Some? && cached.resource.value.uid != ""
    && recs[id].uid != cached.resource.value.uid
  }

  /** A recreated object counts as deleted, but not as applied. */
  function HandleChangedUID(w: Wait, cond: Condition, id: ObjMetadata): Wait {
    Mark(w, id, if cond == AllNotFound then ReconcileSucceeded else ReconcileFailed)
  }

  function StartOne(w: Wait, cond: Condition, cache: Cache, id: ObjMetadata): Wait {
    if SkippedBefore(w.recs, cond, id) then
      Mark(w, id, ReconcileSkipped)
    else if ChangedUID(w.recs, cache, id) then
      HandleChangedUID(w, cond, id)
    else if ConditionMet(w.recs, cache, id, cond) then
      Mark(w, id, ReconcileSucceeded)
    else
      Mark(w, id, ReconcilePending).(pending := w.pending + [id])
  }

  function StartAll(w: Wait, cond: Condition, cache: Cache, ids: seq<ObjMetadata>): Wait {
    if ids == [] then w
    else StartOne(StartAll(w, cond, cache, ids[..|ids| - 1]), cond, cache, ids[|ids| - 1])
  }

  /** The task is over as soon as nothing is pending. */
  function CancelIfDone(w: Wait): Wait {
    if w.pending == [] then w.(ctx := Cancel(w.ctx)) else w
  }

  function Start(w: Wait, cond: Condition, cache: Cache, ids: seq<ObjMetadata>): Wait {
    CancelIfDone(StartAll(w.(pending := []), cond, cache, ids))
  }

  function UpdatePending(w: Wait, cond: Condition, cache: Cache, id: ObjMetadata): Wait {
    if ChangedUID(w.recs, cache, id) then
      HandleChangedUID(w, cond, id).(pending := Remove(w.pending, id))
    else if ConditionMet(w.recs, cache, id, cond) then
      Mark(w, id, ReconcileSucceeded).(pending := Remove(w.pending, id))
    else if Get(cache, id).status == FailedStatus then
      Mark(w, id, ReconcileFailed).(pending := Remove(w.pending, id), failed := w.failed + [id])
    else w
  }

  function UpdateFailed(w: Wait, cond: Condition, cache: Cache, id: ObjMetadata): Wait {
    if ConditionMet(w.recs, cache, id, cond) then
      Mark(w, id, ReconcileSucceeded).(failed := Remove(w.failed, id))
    else if Get(cache, id).status != FailedStatus then
      Mark(w, id, ReconcilePending).(failed := Remove(w.failed, id), pending := w.pending + [id])
    else w
  }

  function UpdateReconciled(w: Wait, cond: Condition, cache: Cache, id: ObjMetadata): Wait {
    if ConditionMet(w.recs, cache, id, cond) then w
    else Mark(w, id, ReconcilePending).(pending := w.pending + [id])
  }

  /** A status event for id arrives while the task is the current one. */
  function StatusUpdate(w: Wait, ids: seq<ObjMetadata>, cond: Condition, cache: Cache, id: ObjMetadata): Wait {
    if id in w.pending then CancelIfDone(UpdatePending(w, cond, cache, id))
    else if id !in ids || SkippedBefore(w.recs, cond, id) then w
    else if id in w.failed then CancelIfDone(UpdateFailed(w, cond, cache, id))
    else CancelIfDone(UpdateReconciled(w, cond, cache, id))
  }

  function TimeoutAll(w: Wait, ids: seq<ObjMetadata>): Wait {
    if ids == [] then w
    else Mark(TimeoutAll(w, ids[..|ids| - 1]), ids[|ids| - 1], ReconcileTimeout)
  }

  /** The deadline passed: every object still pending has timed out. */
  function SendTimeoutEvents(w: Wait): Wait {
    TimeoutAll(w, w.pending)
  }

  /** The status last announced for id. */
  function LastEvent(log: seq<WaitEvent>, id: ObjMetadata): Option<Reconcile> {
    if log == [] then None
    else if log[|log| - 1].id == id then Some(log[|log| - 1].status)
    else LastEvent(log[..|log| - 1], id)
  }
}
