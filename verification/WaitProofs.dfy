/** What every step of a wait task keeps. */
module WaitProofs {
  import opened Base
  import opened Records
  import opened ObjMetadataSets
  import opened WaitSpec

  /** The lists are duplicate-free, disjoint and within the task's ids. */
  ghost predicate Lists(w: Wait, ids: seq<ObjMetadata>) {
    && NoDup(w.pending) && NoDup(w.failed)
    && (forall id :: id in w.pending ==> id in ids && id !in w.failed)
    && (forall id :: id in w.failed ==> id in ids)
  }

  /** One id's record, list membership and last announcement agree. */
  ghost predicate Agrees(w: Wait, timedOut: bool, id: ObjMetadata) {
    id in w.recs ==>
      var r := w.recs[id].reconcile;
      && r != UnknownReconcile
      && (r == ReconcilePending || r == ReconcileTimeout <==> id in w.pending)
      && (r == ReconcileTimeout ==> timedOut)
      && (id in w.failed ==> r == ReconcileFailed)
      && LastEvent(w.log, id) == Some(r)
  }

  /** The invariant of a wait task, before its deadline and (timedOut) after it. */
  ghost predicate Tracks(w: Wait, ids: seq<ObjMetadata>, timedOut: bool) {
    Lists(w, ids) && forall id :: id in ids ==> Agrees(w, timedOut, id)
  }

  /** Only the reconcile status of the listed ids may differ. */
  ghost predicate OnlyReconcile(a: RecordMap, b: RecordMap, ids: seq<ObjMetadata>) {
    && b.Keys == a.Keys
    && forall id :: id in a ==>
      b[id] == (if id in ids then a[id].(reconcile := b[id].reconcile) else a[id])
  }

  lemma MarkFacts(w: Wait, id: ObjMetadata, r: Reconcile)
    ensures var m := Mark(w, id, r);
      && LastEvent(m.log, id) == Some(r)
      && (forall x :: x != id ==> LastEvent(m.log, x) == LastEvent(w.log, x))
      && (id in w.recs ==> m.recs == w.recs[id := w.recs[id].(reconcile := r)])
      && (id !in w.recs ==> m.recs == w.recs)
  {
    var m := Mark(w, id, r);
    assert m.log[..|m.log| - 1] == w.log;
  }

  /** Marking id and moving it to the list its status belongs to keeps the invariant. */
  lemma MarkKeeps(w: Wait, ids: seq<ObjMetadata>, timedOut: bool, id: ObjMetadata, r: Reconcile, v: Wait)
    requires Tracks(w, ids, timedOut) && id in ids
    requires v.recs == Mark(w, id, r).recs && v.log == Mark(w, id, r).log
    requires Lists(v, ids)
    requires forall x :: x != id ==> (x in v.pending <==> x in w.pending) && (x in v.failed ==> x in w.failed)
    requires r != ReconcileTimeout && r != UnknownReconcile
    requires id in v.pending <==> r == ReconcilePending
    requires id in v.failed ==> r == ReconcileFailed
    ensures Tracks(v, ids, timedOut)
  {
    MarkFacts(w, id, r);
    forall x | x in ids ensures Agrees(v, timedOut, x) {
      assert Agrees(w, timedOut, x);
    }
  }

  lemma CancelKeeps(w: Wait, ids: seq<ObjMetadata>, timedOut: bool)
    requires Tracks(w, ids, timedOut)
    ensures Tracks(CancelIfDone(w), ids, timedOut)
  {
    forall x | x in ids ensures Agrees(CancelIfDone(w), timedOut, x) {
      assert Agrees(w, timedOut, x);
    }
  }

  /** startInner on one more id. */
  lemma StartOneTracks(p: Wait, cond: Condition, cache: Cache, seen: seq<ObjMetadata>, id: ObjMetadata)
    requires Tracks(p, seen, false) && id !in seen && p.failed == []
    ensures Tracks(StartOne(p, cond, cache, id), seen + [id], false)
    ensures StartOne(p, cond, cache, id).failed == []
  {
    var v := StartOne(p, cond, cache, id);
    var r := v.log[|v.log| - 1].status;
    MarkFacts(p, id, r);
    if v.pending != p.pending {
      NoDupSnoc(p.pending, id);
    }
    forall x | x in seen + [id] ensures Agrees(v, false, x) {
      if x != id {
        assert Agrees(p, false, x);
      }
    }
  }

  lemma {:induction false} StartAllTracks(w: Wait, cond: Condition, cache: Cache, ids: seq<ObjMetadata>)
    requires NoDup(ids) && w.pending == [] && w.failed == []
    ensures Tracks(StartAll(w, cond, cache, ids), ids, false)
    ensures StartAll(w, cond, cache, ids).failed == []
  {
    if ids != [] {
      var seen, id := ids[..|ids| - 1], ids[|ids| - 1];
      StartAllTracks(w, cond, cache, seen);
      StartOneTracks(StartAll(w, cond, cache, seen), cond, cache, seen, id);
      assert ids == seen + [id];
    }
  }

  lemma SetReconcileFrame(recs: RecordMap, ids: seq<ObjMetadata>, id: ObjMetadata, r: Reconcile)
    requires id in ids
    ensures OnlyReconcile(recs, SetReconcile(recs, id, r), ids)
  {
  }

  lemma StartOneFrame(p: Wait, cond: Condition, cache: Cache, ids: seq<ObjMetadata>, id: ObjMetadata)
    requires id in ids
    ensures OnlyReconcile(p.recs, StartOne(p, cond, cache, id).recs, ids)
    ensures StartOne(p, cond, cache, id).ctx == p.ctx
  {
    forall r { SetReconcileFrame(p.recs, ids, id, r); }
    hide SkippedBefore, ChangedUID, ConditionMet, OnlyReconcile;
  }

  lemma {:induction false} StartAllFrame(w: Wait, cond: Condition, cache: Cache, ids: seq<ObjMetadata>)
    ensures OnlyReconcile(w.recs, StartAll(w, cond, cache, ids).recs, ids)
    ensures StartAll(w, cond, cache, ids).ctx == w.ctx
  {
    if ids != [] {
      var seen, id := ids[..|ids| - 1], ids[|ids| - 1];
      StartAllFrame(w, cond, cache, seen);
      StartOneFrame(StartAll(w, cond, cache, seen), cond, cache, ids, id);
      assert ids == seen + [id];
      hide StartOne, StartAll;
    }
  }

  /** Starting a wait task establishes its invariant; it cancels itself exactly when nothing is pending. */
  lemma StartTracks(w: Wait, cond: Condition, cache: Cache, ids: seq<ObjMetadata>)
    requires NoDup(ids) && w.failed == [] && w.ctx == Live
    ensures var v := Start(w, cond, cache, ids);
      && Tracks(v, ids, false)
      && OnlyReconcile(w.recs, v.recs, ids)
      && (v.ctx == Canceled <==> v.pending == [])
      && v.ctx != Expired
  {
    StartAllTracks(w.(pending := []), cond, cache, ids);
    StartAllFrame(w.(pending := []), cond, cache, ids);
    CancelKeeps(StartAll(w.(pending := []), cond, cache, ids), ids, false);
  }

  lemma UpdatePendingTracks(w: Wait, ids: seq<ObjMetadata>, cond: Condition, cache: Cache, id: ObjMetadata, timedOut: bool)
    requires Tracks(w, ids, timedOut) && id in w.pending
    ensures Tracks(UpdatePending(w, cond, cache, id), ids, timedOut)
  {
    var v := UpdatePending(w, cond, cache, id);
    RemoveIsDifference(w.pending, id);
    if v != w {
      MarkKeeps(w, ids, timedOut, id, v.log[|v.log| - 1].status, v);
    }
  }

  lemma UpdateFailedTracks(w: Wait, ids: seq<ObjMetadata>, cond: Condition, cache: Cache, id: ObjMetadata, timedOut: bool)
    requires Tracks(w, ids, timedOut) && id in w.failed
    ensures Tracks(UpdateFailed(w, cond, cache, id), ids, timedOut)
  {
    var v := UpdateFailed(w, cond, cache, id);
    RemoveIsDifference(w.failed, id);
    if v != w {
      MarkKeeps(w, ids, timedOut, id, v.log[|v.log| - 1].status, v);
    }
  }

  /** A status update keeps the invariant, whenever it lands. */
  lemma StatusUpdateTracks(w: Wait, ids: seq<ObjMetadata>, cond: Condition, cache: Cache, id: ObjMetadata, timedOut: bool)
    requires Tracks(w, ids, timedOut)
    ensures Tracks(StatusUpdate(w, ids, cond, cache, id), ids, timedOut)
  {
    if id in w.pending {
      UpdatePendingTracks(w, ids, cond, cache, id, timedOut);
      CancelKeeps(UpdatePending(w, cond, cache, id), ids, timedOut);
    } else if id !in ids || SkippedBefore(w.recs, cond, id) {
    } else if id in w.failed {
      UpdateFailedTracks(w, ids, cond, cache, id, timedOut);
      CancelKeeps(UpdateFailed(w, cond, cache, id), ids, timedOut);
    } else {
      var v := UpdateReconciled(w, cond, cache, id);
      if v != w {
        MarkKeeps(w, ids, timedOut, id, ReconcilePending, v);
      }
      CancelKeeps(v, ids, timedOut);
    }
  }

  /** When an update makes the task cancel itself, none of its known ids is Pending. */
  lemma SelfCancelMeansReconciled(w: Wait, ids: seq<ObjMetadata>, cond: Condition, cache: Cache, id: ObjMetadata, x: ObjMetadata)
    requires Tracks(w, ids, false) && w.ctx == Live
    requires StatusUpdate(w, ids, cond, cache, id).ctx == Canceled
    requires x in ids && x in w.recs
    ensures StatusUpdate(w, ids, cond, cache, id).pending == []
    ensures x in StatusUpdate(w, ids, cond, cache, id).recs
    ensures StatusUpdate(w, ids, cond, cache, id).recs[x].reconcile in {ReconcileSucceeded, ReconcileSkipped, ReconcileFailed}
  {
    StatusUpdateTracks(w, ids, cond, cache, id, false);
    var v := StatusUpdate(w, ids, cond, cache, id);
    assert Agrees(v, false, x);
  }

  /** A status update touches no record outside the task, and nothing but reconcile statuses inside it. */
  lemma StatusUpdateFrame(w: Wait, ids: seq<ObjMetadata>, cond: Condition, cache: Cache, id: ObjMetadata)
    requires forall x :: x in w.pending ==> x in ids
    ensures OnlyReconcile(w.recs, StatusUpdate(w, ids, cond, cache, id).recs, ids)
  {
    if id in w.pending || id in ids {
      forall r { SetReconcileFrame(w.recs, ids, id, r); }
    }
  }

  lemma {:induction false} TimeoutAllFacts(w: Wait, ids: seq<ObjMetadata>)
    ensures var v := TimeoutAll(w, ids);
      && v.pending == w.pending && v.failed == w.failed && v.ctx == w.ctx
      && OnlyReconcile(w.recs, v.recs, ids)
      && (forall x :: x in ids && x in w.recs ==> v.recs[x].reconcile == ReconcileTimeout)
      && (forall x :: LastEvent(v.log, x) == if x in ids then Some(ReconcileTimeout) else LastEvent(w.log, x))
  {
    if ids != [] {
      var seen, id := ids[..|ids| - 1], ids[|ids| - 1];
      TimeoutAllFacts(w, seen);
      MarkFacts(TimeoutAll(w, seen), id, ReconcileTimeout);
      assert ids == seen + [id];
    }
  }

  /** After the deadline the pending ids are recorded and announced as timed out. */
  lemma TimeoutTracks(w: Wait, ids: seq<ObjMetadata>, timedOut: bool)
    requires Tracks(w, ids, timedOut)
    ensures Tracks(SendTimeoutEvents(w), ids, true)
    ensures OnlyReconcile(w.recs, SendTimeoutEvents(w).recs, ids)
    ensures forall x :: x in w.recs && x in ids ==> SendTimeoutEvents(w).recs[x].reconcile != ReconcilePending
  {
    TimeoutAllFacts(w, w.pending);
    var v := SendTimeoutEvents(w);
    forall x | x in ids ensures Agrees(v, true, x) {
      assert Agrees(w, timedOut, x);
    }
    forall x | x in w.recs && x in ids ensures v.recs[x].reconcile != ReconcilePending {
      assert Agrees(w, timedOut, x);
    }
  }
}
