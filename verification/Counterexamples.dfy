/** Two runs that show where the code and its comments part: a late status update, and a destroy with a skipped delete. */
module Counterexamples {
  import opened Base
  import opened Records
  import opened Objects
  import opened ObjMetadataSets
  import opened DependencyFilter
  import opened Actuate
  import opened Engine
  import opened PlanSpec
  import WaitSpec

  lemma ReachStep(p: Plan, stored: Option<set<ObjMetadata>>, s: State, l: Label, t: State)
    requires Reachable(p, stored, s) && Step(p, s, l) == Some(t)
    ensures Reachable(p, stored, t)
  {
    hide Step;
    var labels :| Exec(p, Init(p, stored), labels) == Some(s);
    assert (labels + [l])[..|labels|] == labels;
    assert Exec(p, Init(p, stored), labels + [l]) == Some(t);
  }

  // ---------- Single moves ----------

  /** The parts of a state that decide what happens next. */
  ghost predicate At(s: State, phase: Phase, recs: RecordMap, cache: Cache) {
    s.phase == phase && s.recs == recs && s.cache == cache && s.abort == None
  }

  lemma GoSync(p: Plan, stored: Option<set<ObjMetadata>>, ts: TaskState) returns (t: State)
    requires |p.tasks| > 0 && !p.tasks[0].Wait? && ts == StartState(p, Init(p, stored), p.tasks[0]).0
    ensures Reachable(p, stored, t) && At(t, Running(0, ts), Register(p.planned), map[]) && t.deletions == []
  {
    var s := Init(p, stored);
    assert Exec(p, s, []) == Some(s);
    t := NextTask(p, s, 0);
    hide Register;
    ReachStep(p, stored, s, Sync, t);
  }

  /** A task's result is taken and a task that is not a wait task starts. */
  lemma GoNext(p: Plan, stored: Option<set<ObjMetadata>>, s: State, i: nat, ts: TaskState) returns (t: State)
    requires Reachable(p, stored, s) && s.abort == None && s.phase.Running? && s.phase.i == i && i + 1 < |p.tasks|
    requires ResultReady(p.tasks[i], s.phase.ts) && s.phase.ts != Reporting(true) && !p.tasks[i + 1].Wait?
    requires ts == StartState(p, s, p.tasks[i + 1]).0
    ensures Reachable(p, stored, t) && At(t, Running(i + 1, ts), s.recs, s.cache) && t.deletions == s.deletions
  {
    t := StepResult(p, s).value;
    ReachStep(p, stored, s, TaskResult, t);
  }

  /** The same for a wait task on one object. */
  lemma GoWait(p: Plan, stored: Option<set<ObjMetadata>>, s: State, i: nat, id: ObjMetadata) returns (t: State)
    requires Reachable(p, stored, s) && s.abort == None && s.phase.Running? && s.phase.i == i && i + 1 < |p.tasks|
    requires ResultReady(p.tasks[i], s.phase.ts) && s.phase.ts != Reporting(true)
    requires p.tasks[i + 1].Wait? && p.tasks[i + 1].ids == [id]
    ensures Reachable(p, stored, t) && t.deletions == s.deletions
    ensures var w := WaitSpec.StartOne(WaitSpec.Wait(s.recs, [], [], s.waits, WaitSpec.Live), p.tasks[i + 1].cond, s.cache, id);
      At(t, Running(i + 1, Waiting(w.pending, w.failed, WaitSpec.CancelIfDone(w).ctx, false, false)), w.recs, s.cache)
  {
    var w0 := WaitSpec.Wait(s.recs, [], [], s.waits, WaitSpec.Live);
    StartOnOne(w0, p.tasks[i + 1].cond, s.cache, id);
    t := StepResult(p, s).value;
    hide WaitSpec.Start, WaitSpec.StartOne;
    ReachStep(p, stored, s, TaskResult, t);
  }

  lemma StartOnOne(w: WaitSpec.Wait, cond: Condition, cache: Cache, id: ObjMetadata)
    ensures WaitSpec.Start(w, cond, cache, [id]) ==
      WaitSpec.CancelIfDone(WaitSpec.StartOne(w.(pending := []), cond, cache, id))
  {
    var w0 := w.(pending := []);
    assert [id][..0] == [];
    assert WaitSpec.StartAll(w0, cond, cache, []) == w0;
    assert WaitSpec.StartAll(w0, cond, cache, [id]) == WaitSpec.StartOne(WaitSpec.StartAll(w0, cond, cache, []), cond, cache, id);
  }

  lemma GoWrite(p: Plan, stored: Option<set<ObjMetadata>>, s: State, i: nat) returns (t: State)
    requires Reachable(p, stored, s) && s.phase == Running(i, Writing) && i < |p.tasks| && !p.dryRun
    requires p.tasks[i].InvAdd? || p.tasks[i].InvSet?
    ensures Reachable(p, stored, t) && t.phase == Running(i, Reporting(false))
    ensures t.recs == s.recs && t.cache == s.cache && t.abort == s.abort && t.deletions == s.deletions
    ensures p.tasks[i].InvSet? && p.destroy && DestroySuccessful(s.recs) ==> t.stored == None
  {
    var l := InvStep(InvEnv(true, true, true));
    t := StepInv(p, s, l.invEnv).value;
    hide FinalRefs, DestroySuccessful;
    ReachStep(p, stored, s, l, t);
  }

  lemma GoGoroutine(p: Plan, stored: Option<set<ObjMetadata>>, s: State, i: nat, pending: seq<ObjMetadata>) returns (t: State)
    requires Reachable(p, stored, s) && s.abort == None
    requires s.phase == Running(i, Waiting(pending, [], WaitSpec.Canceled, false, false))
    ensures Reachable(p, stored, t) && t.deletions == s.deletions
    ensures At(t, Running(i, Waiting(pending, [], WaitSpec.Canceled, false, true)), s.recs, s.cache)
  {
    t := StepWaitGoroutine(p, s).value;
    ReachStep(p, stored, s, WaitGoroutine, t);
  }

  lemma GoStatus(p: Plan, stored: Option<set<ObjMetadata>>, s: State, id: ObjMetadata, rs: ResourceStatus) returns (t: State)
    requires Reachable(p, stored, s) && s.abort == None && s.phase.Running? && s.phase.ts.Waiting? && s.phase.i < |p.tasks|
    requires p.tasks[s.phase.i].Wait? && id in p.tasks[s.phase.i].ids
    ensures Reachable(p, stored, t)
    ensures var ts, cache := s.phase.ts, s.cache[id := rs];
      var w := WaitSpec.StatusUpdate(WaitSpec.Wait(s.recs, ts.pending, ts.failing, s.waits, ts.ctx),
        p.tasks[s.phase.i].ids, p.tasks[s.phase.i].cond, cache, id);
      At(t, Running(s.phase.i, ts.(pending := w.pending, failing := w.failed, ctx := w.ctx)), w.recs, cache)
  {
    t := StepStatus(p, s, id, rs).value;
    hide WaitSpec.StatusUpdate;
    ReachStep(p, stored, s, StatusEvent(id, rs), t);
  }

  // ---------- A status update after the wait task cancelled itself ----------

  /** Apply a, wait for it, apply b, which depends on a, and wait for it. */
  function Chain(a: Unstructured, b: Unstructured): Plan {
    Plan(
      [InvAdd([a, b]), Apply([a]), Wait([a.id], AllCurrent, false), Apply([b]), Wait([b.id], AllCurrent, false), InvSet],
      map[a.id := ApplyStrategy, b.id := ApplyStrategy],
      map[a.id := [], b.id := [a.id]],
      map[a.id := [b.id], b.id := []],
      {}, {}, false, false)
  }

  lemma ChainSlots(a: Unstructured, b: Unstructured)
    ensures forall j, m :: Slot(Chain(a, b), j, m) <==> (j == 1 || j == 3) && m == 0
    ensures IdAt(Chain(a, b), 1, 0) == a.id && IdAt(Chain(a, b), 3, 0) == b.id
  {
  }

  lemma ChainRegistered(a: Unstructured, b: Unstructured)
    requires a.id != b.id
    ensures SlotsRegistered(Chain(a, b)) && SlotsComplete(Chain(a, b))
  {
    var p := Chain(a, b);
    ChainSlots(a, b);
    assert p.planned[a.id] == ApplyStrategy && p.planned[b.id] == ApplyStrategy;
    hide Slot;
    assert Slot(p, 1, 0) && Slot(p, 3, 0);
  }

  lemma ChainOrdered(a: Unstructured, b: Unstructured)
    requires a.id != b.id
    ensures Ordered(Chain(a, b)) && Transposed(Chain(a, b))
  {
    var p := Chain(a, b);
    ChainSlots(a, b);
    assert Related(p, ApplyStrategy, a.id) == [] && Related(p, ApplyStrategy, b.id) == [a.id];
    assert Related(p, DeleteStrategy, a.id) == [b.id] && Related(p, DeleteStrategy, b.id) == [];
    assert forall x :: x != a.id && x != b.id ==> Related(p, ApplyStrategy, x) == [] && Related(p, DeleteStrategy, x) == [];
    assert StrategyOf(p.tasks[1]) == ApplyStrategy && StrategyOf(p.tasks[3]) == ApplyStrategy;
    hide Slot, Related;
  }

  lemma ChainWaits(a: Unstructured, b: Unstructured)
    ensures WaitsFollow(Chain(a, b)) && Staged(Chain(a, b))
  {
    assert Ids([a]) == [a.id] && Ids([b]) == [b.id];
  }

  lemma ChainWellPlanned(a: Unstructured, b: Unstructured)
    requires a.id != b.id
    ensures WellPlanned(Chain(a, b))
  {
    ChainRegistered(a, b);
    ChainOrdered(a, b);
    ChainWaits(a, b);
    assert Ids([a, b]) == [a.id, b.id];
    hide SlotsRegistered, SlotsComplete, Ordered, Transposed, WaitsFollow, Staged;
  }

  const APPLIED := ApplyEnv(true, Allow, true, Some(Resource("uid", 1)))

  /** The records while a is waited for. */
  function WaitRecords(a: Unstructured, b: Unstructured, r: Reconcile): RecordMap {
    map[a.id := Record(ApplyStrategy, Succeeded, r, "uid", 1), b.id := NewRecord(ApplyStrategy, Pending)]
  }

  lemma GoApply(a: Unstructured, b: Unstructured, s: State) returns (t: State)
    requires a.id != b.id && Reachable(Chain(a, b), None, s) && At(s, Running(1, Actuating(0, {})), Register(Chain(a, b).planned), map[])
    ensures Reachable(Chain(a, b), None, t) && At(t, Running(1, Actuating(1, {})), WaitRecords(a, b, ReconcilePending), map[])
  {
    var p := Chain(a, b);
    assert Related(p, ApplyStrategy, a.id) == [];
    assert FilterObject(p, s.recs, ApplyStrategy, a.id) == Pass;
    hide FilterObject;
    t := StepApply(p, s, APPLIED).value;
    ReachStep(p, None, s, ApplyStep(APPLIED), t);
    assert t.recs == WaitRecords(a, b, ReconcilePending);
  }

  /** Up to the point where the wait task for a has started and a is pending. */
  lemma ReachWait(a: Unstructured, b: Unstructured) returns (s: State)
    requires a.id != b.id
    ensures Reachable(Chain(a, b), None, s)
    ensures At(s, Running(2, Waiting([a.id], [], WaitSpec.Live, false, false)), WaitRecords(a, b, ReconcilePending), map[])
  {
    var p := Chain(a, b);
    s := ReachApply(a, b);
    s := GoApply(a, b, s);
    StartPending(a, b, WaitSpec.Wait(s.recs, [], [], s.waits, WaitSpec.Live));
    hide WaitRecords, WaitSpec.StartOne;
    s := GoWait(p, None, s, 1, a.id);
  }

  lemma StartPending(a: Unstructured, b: Unstructured, w: WaitSpec.Wait)
    requires a.id != b.id && w.recs == WaitRecords(a, b, ReconcilePending) && w.pending == [] && w.failed == [] && w.ctx == WaitSpec.Live
    ensures var v := WaitSpec.StartOne(w, AllCurrent, map[], a.id);
      v.recs == w.recs && v.pending == [a.id] && v.failed == [] && v.ctx == WaitSpec.Live
  {
    assert w.recs[a.id := w.recs[a.id].(reconcile := ReconcilePending)] == w.recs;
  }

  lemma ReachApply(a: Unstructured, b: Unstructured) returns (s: State)
    ensures Reachable(Chain(a, b), None, s) && At(s, Running(1, Actuating(0, {})), Register(Chain(a, b).planned), map[])
  {
    var p := Chain(a, b);
    hide Register, Reachable;
    s := GoSync(p, None, Writing);
    s := GoWrite(p, None, s, 0);
    s := GoNext(p, None, s, 0, Actuating(0, {}));
  }

  /** What the two updates do to the wait task's state. */
  lemma UpdateCurrent(a: Unstructured, b: Unstructured, w: WaitSpec.Wait, cache: Cache)
    requires a.id != b.id && w.recs == WaitRecords(a, b, ReconcilePending) && w.pending == [a.id] && w.failed == [] && w.ctx == WaitSpec.Live
    requires Get(cache, a.id) == ResourceStatus(Some(Resource("uid", 1)), CurrentStatus)
    ensures var v := WaitSpec.StatusUpdate(w, [a.id], AllCurrent, cache, a.id);
      v.recs == WaitRecords(a, b, ReconcileSucceeded) && v.pending == [] && v.failed == [] && v.ctx == WaitSpec.Canceled
  {
    assert Find([a.id], a.id) == 0 && Remove([a.id], a.id) == [];
  }

  lemma UpdateBack(a: Unstructured, b: Unstructured, w: WaitSpec.Wait, cache: Cache)
    requires a.id != b.id && w.recs == WaitRecords(a, b, ReconcileSucceeded) && w.pending == [] && w.failed == [] && w.ctx == WaitSpec.Canceled
    requires Get(cache, a.id) == ResourceStatus(Some(Resource("uid", 1)), InProgressStatus)
    ensures var v := WaitSpec.StatusUpdate(w, [a.id], AllCurrent, cache, a.id);
      v.recs == WaitRecords(a, b, ReconcilePending) && v.pending == [a.id] && v.failed == [] && v.ctx == WaitSpec.Canceled
  {
  }

  /** Two updates in a row: a becomes current, which ends the wait, and then goes back to in progress. */
  lemma ReachLate(a: Unstructured, b: Unstructured) returns (s: State)
    requires a.id != b.id
    ensures Reachable(Chain(a, b), None, s)
    ensures s.phase == Running(2, Waiting([a.id], [], WaitSpec.Canceled, false, false))
    ensures s.recs == WaitRecords(a, b, ReconcilePending) && s.abort == None
  {
    var p := Chain(a, b);
    s := ReachWait(a, b);
    var current := ResourceStatus(Some(Resource("uid", 1)), CurrentStatus);
    hide WaitSpec.StatusUpdate, WaitRecords;
    UpdateCurrent(a, b, WaitSpec.Wait(s.recs, [a.id], [], s.waits, WaitSpec.Live), s.cache[a.id := current]);
    s := GoStatus(p, None, s, a.id, current);
    var back := ResourceStatus(Some(Resource("uid", 1)), InProgressStatus);
    UpdateBack(a, b, WaitSpec.Wait(s.recs, [], [], s.waits, WaitSpec.Canceled), s.cache[a.id := back]);
    s := GoStatus(p, None, s, a.id, back);
  }

  /** So a well-planned run without errors or cancellation can fail b as "premature" although a was applied and
      had been current: the branch that the dependency filter calls a programming error is reachable. */
  lemma LateUpdateIsFatal(a: Unstructured, b: Unstructured)
    requires a.id != b.id
    ensures WellPlanned(Chain(a, b))
    ensures exists s :: (Reachable(Chain(a, b), None, s) && AtObject(Chain(a, b), s, ApplyStrategy)
      && CurrentObject(Chain(a, b), s, ApplyStrategy) == b
      && FilterObject(Chain(a, b), s.recs, ApplyStrategy, b.id) == Fatal(PrematureReconcile))
  {
    ChainWellPlanned(a, b);
    hide WellPlanned;
    var p := Chain(a, b);
    var s := ReachLate(a, b);
    s := GoGoroutine(p, None, s, 2, [a.id]);
    s := GoNext(p, None, s, 2, Actuating(0, {}));
    assert Related(p, ApplyStrategy, b.id) == [a.id];
    assert FilterByRelationship(s.recs, {}, ApplyStrategy, false, a.id) == Fatal(PrematureReconcile);
    assert FilterObject(p, s.recs, ApplyStrategy, b.id) == Fatal(PrematureReconcile);
  }

  // ---------- A destroy that skips a delete ----------

  /** Destroy one object. */
  function Single(a: Unstructured): Plan {
    Plan([Prune([a]), Wait([a.id], AllNotFound, false), InvSet], map[a.id := DeleteStrategy], map[], map[], {}, {a.id}, false, true)
  }

  lemma SingleWellPlanned(a: Unstructured)
    ensures WellPlanned(Single(a))
  {
    var p := Single(a);
    assert Slot(p, 0, 0) && IdAt(p, 0, 0) == a.id;
    assert forall j, m :: Slot(p, j, m) ==> j == 0 && m == 0;
    assert Ids([a]) == [a.id];
  }

  const REFUSED := PruneEnv(Refuse, false, Deleted)

  lemma GoRefuse(a: Unstructured, s: State) returns (t: State)
    requires a.uid != "" && Reachable(Single(a), Some({a.id}), s) && s.deletions == []
    requires At(s, Running(0, Actuating(0, {})), Register(Single(a).planned), map[])
    ensures Reachable(Single(a), Some({a.id}), t) && t.deletions == []
    ensures At(t, Running(0, Actuating(1, {})), map[a.id := NewRecord(DeleteStrategy, Skipped)], map[])
  {
    var p := Single(a);
    hide FilterObject;
    t := StepPrune(p, s, REFUSED).value;
    ReachStep(p, Some({a.id}), s, PruneStep(REFUSED), t);
    assert t.recs == map[a.id := NewRecord(DeleteStrategy, Skipped)];
  }

  lemma GoReturn(p: Plan, stored: Option<set<ObjMetadata>>, s: State) returns (t: State)
    requires Reachable(p, stored, s) && s.abort == None && |p.tasks| > 0 && s.phase == Running(|p.tasks| - 1, Reporting(false))
    ensures Reachable(p, stored, t) && t.phase == Returned(Success)
    ensures t.recs == s.recs && t.stored == s.stored && t.deletions == s.deletions
  {
    t := StepResult(p, s).value;
    ReachStep(p, stored, s, TaskResult, t);
  }

  lemma SkippedPasses(a: Unstructured, recs: RecordMap)
    requires recs == map[a.id := NewRecord(DeleteStrategy, Skipped).(reconcile := ReconcileSkipped)]
    ensures DestroySuccessful(recs)
  {
  }

  lemma StartSkipped(a: Unstructured, w: WaitSpec.Wait)
    requires w.recs == map[a.id := NewRecord(DeleteStrategy, Skipped)] && w.pending == [] && w.failed == []
    ensures var v := WaitSpec.StartOne(w, AllNotFound, map[], a.id);
      v.recs == map[a.id := NewRecord(DeleteStrategy, Skipped).(reconcile := ReconcileSkipped)]
      && v.pending == [] && v.failed == [] && v.ctx == w.ctx
  {
  }

  lemma ReachRefused(a: Unstructured) returns (s: State)
    requires a.uid != ""
    ensures Reachable(Single(a), Some({a.id}), s) && s.deletions == []
    ensures At(s, Running(0, Actuating(1, {})), map[a.id := NewRecord(DeleteStrategy, Skipped)], map[])
  {
    var p := Single(a);
    assert AppliedUIDs(Register(p.planned)) == {};
    hide Register, Reachable;
    s := GoSync(p, Some({a.id}), Actuating(0, {}));
    s := GoRefuse(a, s);
  }

  /** The comment on Start says the inventory is deleted only if no prune failed or was skipped.  Here the only prune
      is skipped by a policy, the object still exists, and the inventory that remembered it is deleted all the same. */
  lemma SkippedDestroyForgets(a: Unstructured)
    requires a.uid != ""
    ensures WellPlanned(Single(a))
    ensures exists s :: (Reachable(Single(a), Some({a.id}), s) && s.phase == Returned(Success)
      && Is(s.recs, a.id, DeleteStrategy, Skipped) && s.deletions == [] && s.stored == None)
  {
    SingleWellPlanned(a);
    hide WellPlanned, Reachable, DestroySuccessful;
    var p, stored := Single(a), Some({a.id});
    var s := ReachRefused(a);
    StartSkipped(a, WaitSpec.Wait(s.recs, [], [], s.waits, WaitSpec.Live));
    hide WaitSpec.StartOne;
    s := GoWait(p, stored, s, 0, a.id);
    SkippedPasses(a, s.recs);
    s := GoGoroutine(p, stored, s, 1, []);
    s := GoNext(p, stored, s, 1, Writing);
    s := GoWrite(p, stored, s, 2);
    s := GoReturn(p, stored, s);
  }
}
