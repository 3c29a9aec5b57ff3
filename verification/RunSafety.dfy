/** Order of actuation over whole runs. */
module RunSafety {
  import opened Base
  import opened Records
  import opened Objects
  import opened DependencyFilter
  import opened Actuate
  import opened Engine
  import opened PlanSpec
  import opened RunInvariant
  import WaitProofs

  /** Each object on the path depends on the next one. */
  ghost predicate DependencyPath(p: Plan, path: seq<ObjMetadata>) {
    |path| > 0 && forall i :: 0 <= i < |path| - 1 ==> path[i + 1] in Related(p, ApplyStrategy, path[i])
  }

  lemma {:induction false} SettledDownPath(p: Plan, recs: RecordMap, path: seq<ObjMetadata>, k: nat)
    requires Closed(p, recs) && DependencyPath(p, path) && Is(recs, path[0], ApplyStrategy, Succeeded)
    requires 0 < k < |path|
    ensures Settled(recs, ApplyStrategy, path[k])
  {
    if k > 1 {
      SettledDownPath(p, recs, path, k - 1);
    }
    assert path[k - 1 + 1] in Related(p, ApplyStrategy, path[k - 1]);
  }

  lemma {:induction false} SettledUpPath(p: Plan, recs: RecordMap, path: seq<ObjMetadata>, k: nat)
    requires Transposed(p) && Closed(p, recs)
    requires DependencyPath(p, path) && Is(recs, path[|path| - 1], DeleteStrategy, Succeeded)
    requires k < |path| - 1
    ensures Settled(recs, DeleteStrategy, path[k])
    decreases |path| - k
  {
    if k + 1 < |path| - 1 {
      SettledUpPath(p, recs, path, k + 1);
    }
    assert path[k] in Related(p, DeleteStrategy, path[k + 1]);
  }

  /** In every reachable state, whatever an applied object depends on, directly or through others,
      was applied successfully and is reconciled. */
  lemma AppliedOnlyOnSettled(p: Plan, stored: Option<set<ObjMetadata>>, s: State, path: seq<ObjMetadata>, k: nat)
    requires WellPlanned(p) && !p.dryRun && Reachable(p, stored, s)
    requires DependencyPath(p, path) && 0 < k < |path|
    requires Is(s.recs, path[0], ApplyStrategy, Succeeded)
    ensures Settled(s.recs, ApplyStrategy, path[k])
  {
    ReachableCore(p, stored, s);
    SettledDownPath(p, s.recs, path, k);
  }

  /** In every reachable state, whatever depends on a deleted object, directly or through others,
      was deleted successfully and is gone. */
  lemma DeletedOnlyUnderGone(p: Plan, stored: Option<set<ObjMetadata>>, s: State, path: seq<ObjMetadata>, k: nat)
    requires WellPlanned(p) && !p.dryRun && Reachable(p, stored, s)
    requires DependencyPath(p, path) && k < |path| - 1
    requires Is(s.recs, path[|path| - 1], DeleteStrategy, Succeeded)
    ensures Settled(s.recs, DeleteStrategy, path[k])
  {
    ReachableCore(p, stored, s);
    SettledUpPath(p, s.recs, path, k);
  }

  /** A related object with the same strategy has had its turn. */
  lemma RelationHadTurn(p: Plan, s: State, b: ObjMetadata)
    requires WellPlanned(p) && Core(p, s)
    requires s.phase.Running? && s.phase.ts.Actuating? && Slot(p, s.phase.i, s.phase.ts.k)
    requires b in Related(p, StrategyOf(p.tasks[s.phase.i]), IdAt(p, s.phase.i, s.phase.ts.k))
    requires b in s.recs && s.recs[b].strategy == StrategyOf(p.tasks[s.phase.i])
    ensures s.recs[b].actuation != Pending
  {
    var j, m :| Slot(p, j, m) && IdAt(p, j, m) == b;
    assert j < s.phase.i;
    assert Done(s, j, m);
  }

  lemma PrematureRelation(p: Plan, recs: RecordMap, strategy: Strategy, id: ObjMetadata) returns (b: ObjMetadata)
    requires FilterObject(p, recs, strategy, id) == Fatal(PrematureActuation)
    ensures b in Related(p, strategy, id) && Is(recs, b, strategy, Pending)
  {
    var rels := Related(p, strategy, id);
    VerdictHasCause(recs, p.invalid, strategy, p.dryRun, rels);
    b :| b in rels && FilterByRelationship(recs, p.invalid, strategy, p.dryRun, b) == Fatal(PrematureActuation);
  }

  /** No run ever finds a related object whose actuation is still pending: the filter's
      "premature actuation" branch is dead, in dry runs too. */
  lemma NeverPremature(p: Plan, stored: Option<set<ObjMetadata>>, s: State, strategy: Strategy)
    requires WellPlanned(p) && Reachable(p, stored, s)
    requires strategy == ApplyStrategy || strategy == DeleteStrategy
    requires AtObject(p, s, strategy)
    ensures FilterObject(p, s.recs, strategy, CurrentObject(p, s, strategy).id) != Fatal(PrematureActuation)
  {
    hide WellPlanned;
    ReachableCore(p, stored, s);
    var id := CurrentObject(p, s, strategy).id;
    assert Slot(p, s.phase.i, s.phase.ts.k) && IdAt(p, s.phase.i, s.phase.ts.k) == id;
    if FilterObject(p, s.recs, strategy, id) == Fatal(PrematureActuation) {
      var b := PrematureRelation(p, s.recs, strategy, id);
      RelationHadTurn(p, s, b);
    }
  }

  /** While a wait task is current, and after it reported, its lists, records and announcements agree. */
  lemma WaitAlwaysTracks(p: Plan, stored: Option<set<ObjMetadata>>, s: State)
    requires WellPlanned(p) && Reachable(p, stored, s)
    requires s.phase.Running? && s.phase.ts.Waiting?
    ensures s.phase.i < |p.tasks| && p.tasks[s.phase.i].Wait?
    ensures WaitProofs.Tracks(WaitOf(s), p.tasks[s.phase.i].ids, s.phase.ts.timedOut)
  {
    ReachableCore(p, stored, s);
  }

  // ---------- Deletions and applied UIDs ----------

  /** Deletes are only sent once no apply task is left, never with the UID of an applied object. */
  ghost predicate DeletionsApart(p: Plan, s: State) {
    && (forall d :: d in s.deletions ==> d.uid != "" && d.uid !in AppliedUIDs(s.recs))
    && (s.deletions != [] && s.phase.Running? ==>
      forall j :: s.phase.i <= j < |p.tasks| ==> !p.tasks[j].Apply?)
    && (s.phase.Idle? ==> s.deletions == [])
    && (s.phase.Running? && s.phase.i < |p.tasks| && p.tasks[s.phase.i].Prune? && s.phase.ts.Actuating? ==>
      s.phase.ts.currentUIDs == AppliedUIDs(s.recs))
  }

  lemma SameApplied(a: RecordMap, b: RecordMap)
    requires a.Keys == b.Keys
    requires forall id :: id in a ==>
      (a[id].strategy == b[id].strategy && a[id].actuation == b[id].actuation && a[id].uid == b[id].uid)
      || (a[id].strategy != ApplyStrategy && b[id].strategy != ApplyStrategy)
    ensures AppliedUIDs(a) == AppliedUIDs(b)
  {
    forall u | u in AppliedUIDs(a) ensures u in AppliedUIDs(b) {
      var id :| id in a && a[id].strategy == ApplyStrategy && a[id].actuation == Succeeded && a[id].uid != "" && a[id].uid == u;
      assert b[id].uid == u;
    }
    forall u | u in AppliedUIDs(b) ensures u in AppliedUIDs(a) {
      var id :| id in b && b[id].strategy == ApplyStrategy && b[id].actuation == Succeeded && b[id].uid != "" && b[id].uid == u;
      assert a[id].uid == u;
    }
  }

  /** A delete is only sent for an object whose UID is known and not among the applied ones. */
  lemma PruneSends(env: PruneEnv, verdict: Verdict, uid: string, currentUIDs: set<string>, dryRun: bool)
    ensures PruneOne(env, verdict, uid, currentUIDs, dryRun).deleteSent ==> uid != "" && uid !in currentUIDs && !dryRun
  {
  }

  /** What a prune step sends and records. */
  lemma PruneStepFields(p: Plan, s: State, t: State, env: PruneEnv)
    requires AtObject(p, s, DeleteStrategy) && StepPrune(p, s, env) == Some(t)
    ensures var obj := CurrentObject(p, s, DeleteStrategy);
      && t.phase == NextObject(s)
      && (t.deletions == s.deletions
        || (t.deletions == s.deletions + [Deletion(obj.id, obj.uid)] && obj.uid != "" && obj.uid !in s.phase.ts.currentUIDs))
      && obj.id in t.recs && t.recs == s.recs[obj.id := t.recs[obj.id]] && t.recs[obj.id].strategy == DeleteStrategy
  {
    var obj := CurrentObject(p, s, DeleteStrategy);
    var verdict := FilterObject(p, s.recs, DeleteStrategy, obj.id);
    PruneRecord(env, verdict, obj.uid, s.phase.ts.currentUIDs, p.dryRun);
    PruneSends(env, verdict, obj.uid, s.phase.ts.currentUIDs, p.dryRun);
    hide FilterObject, PruneOne;
  }

  lemma PruneDeletionsApart(p: Plan, s: State, t: State, env: PruneEnv)
    requires WellPlanned(p) && Core(p, s) && DeletionsApart(p, s) && AtObject(p, s, DeleteStrategy)
    requires StepPrune(p, s, env) == Some(t)
    ensures DeletionsApart(p, t)
  {
    assert Slot(p, s.phase.i, s.phase.ts.k) && IdAt(p, s.phase.i, s.phase.ts.k) == CurrentObject(p, s, DeleteStrategy).id;
    assert Staged(p) && p.tasks[s.phase.i].Prune?;
    CurrentPending(p, s);
    hide Core, WellPlanned, AppliedUIDs, StepPrune, DeletionsApart, Staged, Slot;
    NoApplyAfterPrune(p, s.phase.i);
    PruneStepFields(p, s, t, env);
    SameUIDs(p, s, t);
    ApartKept(p, s, t);
  }

  lemma ApartKept(p: Plan, s: State, t: State)
    requires DeletionsApart(p, s) && AtObject(p, s, DeleteStrategy) && t.phase == NextObject(s)
    requires AppliedUIDs(t.recs) == AppliedUIDs(s.recs)
    requires forall j :: s.phase.i <= j < |p.tasks| ==> !p.tasks[j].Apply?
    requires var obj := CurrentObject(p, s, DeleteStrategy);
      t.deletions == s.deletions
      || (t.deletions == s.deletions + [Deletion(obj.id, obj.uid)] && obj.uid != "" && obj.uid !in s.phase.ts.currentUIDs)
    ensures DeletionsApart(p, t)
  {
    hide AppliedUIDs;
    forall d | d in t.deletions ensures d.uid != "" && d.uid !in AppliedUIDs(t.recs) {
      assert d in s.deletions || d == t.deletions[|t.deletions| - 1];
    }
  }

  lemma NoApplyAfterPrune(p: Plan, i: nat)
    requires Staged(p) && i < |p.tasks| && p.tasks[i].Prune?
    ensures forall j :: i <= j < |p.tasks| ==> !p.tasks[j].Apply?
  {
  }

  lemma SameUIDs(p: Plan, s: State, t: State)
    requires AtObject(p, s, DeleteStrategy)
    requires var id := CurrentObject(p, s, DeleteStrategy).id;
      && id in s.recs && s.recs[id].strategy == DeleteStrategy
      && id in t.recs && t.recs == s.recs[id := t.recs[id]] && t.recs[id].strategy == DeleteStrategy
    ensures AppliedUIDs(t.recs) == AppliedUIDs(s.recs)
  {
    hide AppliedUIDs;
    SameApplied(s.recs, t.recs);
  }

  /** Everything but the reconcile statuses is the same. */
  ghost predicate SameButReconcile(a: RecordMap, b: RecordMap) {
    b.Keys == a.Keys && forall id :: id in b ==> b[id] == a[id].(reconcile := b[id].reconcile)
  }

  lemma NextTaskRecs(p: Plan, s: State, i: nat)
    ensures SameButReconcile(s.recs, NextTask(p, s, i).recs)
  {
    if i < |p.tasks| && p.tasks[i].Wait? {
      var w := WaitSpec.Wait(s.recs, [], [], s.waits, WaitSpec.Live);
      WaitProofs.StartAllFrame(w, p.tasks[i].cond, s.cache, p.tasks[i].ids);
    }
  }

  lemma StatusRecs(p: Plan, s: State, t: State, id: ObjMetadata, rs: ResourceStatus)
    requires Core(p, s) && StepStatus(p, s, id, rs) == Some(t)
    ensures SameButReconcile(s.recs, t.recs)
  {
    if s.abort.None? && s.phase.Running? && p.tasks[s.phase.i].Wait? && id in p.tasks[s.phase.i].ids {
      WaitProofs.StatusUpdateFrame(WaitOf(s), p.tasks[s.phase.i].ids, p.tasks[s.phase.i].cond, t.cache, id);
    }
  }

  lemma InvRecs(p: Plan, s: State, t: State, env: InvEnv)
    requires StepInv(p, s, env) == Some(t)
    ensures t.recs == s.recs
  {
  }

  /** Only apply and prune steps change more than reconcile statuses. */
  lemma OnlyReconcileChanges(p: Plan, s: State, l: Label, t: State)
    requires Core(p, s) && Step(p, s, l) == Some(t)
    requires !l.ApplyStep? && !l.PruneStep?
    ensures SameButReconcile(s.recs, t.recs)
  {
    hide Core, StepStatus, StepInv, StartState;
    match l
    case StatusEvent(id, rs) => StatusRecs(p, s, t, id, rs);
    case WaitGoroutine => WaitProofs.TimeoutAllFacts(WaitOf(s), s.phase.ts.pending);
    case TaskResult =>
      if !t.phase.Returned? {
        NextTaskRecs(p, s.(groups := s.groups + [Finished(s.phase.i)]), s.phase.i + 1);
      }
    case Sync => NextTaskRecs(p, s, 0);
    case InvStep(env) => InvRecs(p, s, t, env);
    case _ =>
  }

  /** The cursor never moves back, and stays put unless a result is taken. */
  lemma CursorMoves(p: Plan, s: State, l: Label, t: State)
    requires Step(p, s, l) == Some(t)
    ensures t.phase.Idle? ==> s.phase.Idle?
    ensures s.phase.Running? && t.phase.Running? ==> s.phase.i <= t.phase.i
    ensures s.phase.Running? && t.phase.Running? && !l.TaskResult? ==>
      s.phase.i == t.phase.i && (s.phase.ts.Actuating? && !l.ApplyStep? && !l.PruneStep? ==> t.phase.ts == s.phase.ts)
  {
    hide FilterObject, PruneOne, ApplyRecord, WaitSpec.StatusUpdate, WaitSpec.Start, FinalRefs, WaitSpec.SendTimeoutEvents;
  }

  lemma ApplyDeletionsApart(p: Plan, s: State, t: State, env: ApplyEnv)
    requires Shape(p, s) && DeletionsApart(p, s) && StepApply(p, s, env) == Some(t)
    ensures DeletionsApart(p, t)
  {
    hide FilterObject, ApplyRecord;
    assert !(forall j :: s.phase.i <= j < |p.tasks| ==> !p.tasks[j].Apply?);
  }

  /** Starting task i after no delete has been sent, or when no apply task is left. */
  lemma StartDeletionsApart(p: Plan, s: State, i: nat)
    requires Staged(p) && (forall d :: d in s.deletions ==> d.uid != "" && d.uid !in AppliedUIDs(s.recs))
    requires s.deletions != [] ==> forall j :: i <= j < |p.tasks| ==> !p.tasks[j].Apply?
    ensures DeletionsApart(p, NextTask(p, s, i))
  {
    NextTaskRecs(p, s, i);
    SameApplied(s.recs, NextTask(p, s, i).recs);
  }

  lemma OnlyPruneSends(p: Plan, s: State, l: Label, t: State)
    requires Step(p, s, l) == Some(t) && !l.PruneStep?
    ensures t.deletions == s.deletions
    ensures s.phase.Running? && t.phase.Running? && t.phase.ts.Actuating? && !l.TaskResult? && !l.ApplyStep? ==>
      s.phase.ts.Actuating?
  {
    hide FilterObject, ApplyRecord, WaitSpec.StatusUpdate, WaitSpec.Start, FinalRefs, WaitSpec.SendTimeoutEvents;
  }

  lemma QuietDeletionsApart(p: Plan, s: State, l: Label, t: State)
    requires Core(p, s) && DeletionsApart(p, s) && Step(p, s, l) == Some(t)
    requires !l.ApplyStep? && !l.PruneStep? && !l.Sync? && !l.TaskResult?
    requires t.phase.Running? ==> s.phase.Running?
    ensures DeletionsApart(p, t)
  {
    OnlyReconcileChanges(p, s, l, t);
    CursorMoves(p, s, l, t);
    OnlyPruneSends(p, s, l, t);
    hide Core, Step, AppliedUIDs;
    SameApplied(s.recs, t.recs);
  }

  lemma SyncDeletionsApart(p: Plan, s: State, t: State)
    requires Staged(p) && DeletionsApart(p, s) && StepSync(p, s) == Some(t)
    ensures DeletionsApart(p, t)
  {
    StartDeletionsApart(p, s, 0);
  }

  lemma ResultDeletionsApart(p: Plan, s: State, t: State)
    requires Staged(p) && DeletionsApart(p, s) && StepResult(p, s) == Some(t)
    ensures DeletionsApart(p, t)
  {
    hide StartState, AppliedUIDs;
    if !t.phase.Returned? {
      StartDeletionsApart(p, s.(groups := s.groups + [Finished(s.phase.i)]), s.phase.i + 1);
    }
  }

  lemma StepDeletionsApart(p: Plan, s: State, l: Label, t: State)
    requires WellPlanned(p) && Core(p, s) && DeletionsApart(p, s) && Step(p, s, l) == Some(t)
    ensures DeletionsApart(p, t)
  {
    assert Shape(p, s) && Staged(p);
    hide Core, WellPlanned, DeletionsApart, StepStatus, StepSync, StepResult, StepInv, StepApply, StepPrune, StepWaitGoroutine;
    match l
    case ApplyStep(env) => ApplyDeletionsApart(p, s, t, env);
    case PruneStep(env) =>
      RunInvariant.AtObjectOnly(p, s);
      PruneDeletionsApart(p, s, t, env);
    case Sync => SyncDeletionsApart(p, s, t);
    case TaskResult => ResultDeletionsApart(p, s, t);
    case _ =>
      NotStarted(p, s, l, t);
      QuietDeletionsApart(p, s, l, t);
  }

  /** Only the sync event starts a run. */
  lemma NotStarted(p: Plan, s: State, l: Label, t: State)
    requires Step(p, s, l) == Some(t) && !l.Sync?
    ensures t.phase.Running? ==> s.phase.Running?
  {
    hide FilterObject, ApplyRecord, PruneOne, WaitSpec.StatusUpdate, WaitSpec.Start, FinalRefs, WaitSpec.SendTimeoutEvents;
  }

  lemma {:induction false} ExecDeletionsApart(p: Plan, stored: Option<set<ObjMetadata>>, labels: seq<Label>)
    requires WellPlanned(p) && Exec(p, Init(p, stored), labels).Some?
    ensures DeletionsApart(p, Exec(p, Init(p, stored), labels).value)
  {
    if labels != [] {
      var before := labels[..|labels| - 1];
      ExecDeletionsApart(p, stored, before);
      ExecCore(p, stored, before);
      StepDeletionsApart(p, Exec(p, Init(p, stored), before).value, labels[|labels| - 1],
        Exec(p, Init(p, stored), labels).value);
    }
  }

  /** No delete request of a run carries the UID of an object applied in that run. */
  lemma DeletesSpareApplied(p: Plan, stored: Option<set<ObjMetadata>>, s: State, d: Deletion)
    requires WellPlanned(p) && Reachable(p, stored, s) && d in s.deletions
    ensures d.uid != ""
    ensures forall id :: Is(s.recs, id, ApplyStrategy, Succeeded) ==> s.recs[id].uid != d.uid
  {
    var labels :| Exec(p, Init(p, stored), labels) == Some(s);
    ExecDeletionsApart(p, stored, labels);
    hide WellPlanned, Reachable, Exec, Init;
    forall id | Is(s.recs, id, ApplyStrategy, Succeeded) ensures s.recs[id].uid != d.uid {
      assert s.recs[id].uid != "" ==> s.recs[id].uid in AppliedUIDs(s.recs);
    }
  }
}
