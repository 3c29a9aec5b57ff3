/** The filter's "reconcile pending" failure: when a run cannot meet it, and a run that does. */
module RunPunctual {
  import opened Base
  import opened Records
  import opened Objects
  import opened DependencyFilter
  import opened Actuate
  import opened Engine
  import opened PlanSpec
  import opened RunInvariant
  import opened RunWaiting
  import RunSafety
  import WaitSpec
  import WaitProofs

  /** A status update lands on a wait task that has already been told to stop. */
  ghost predicate Late(s: State, l: Label) {
    l.StatusEvent? && s.abort.None? && s.phase.Running? && s.phase.ts.Waiting? && s.phase.ts.ctx != WaitSpec.Live
  }

  /** No status update of the run lands late. */
  ghost predicate Punctual(p: Plan, stored: Option<set<ObjMetadata>>, labels: seq<Label>) {
    labels == [] ||
    (Punctual(p, stored, labels[..|labels| - 1]) &&
      match Exec(p, Init(p, stored), labels[..|labels| - 1])
      case None => true
      case Some(s) => !Late(s, labels[|labels| - 1]))
  }

  /** A wait task that stopped, other than by an abort, has left none of its ids unreconciled. */
  ghost predicate WaitQuiet(p: Plan, s: State) {
    s.phase.Running? && s.phase.ts.Waiting? && s.phase.i < |p.tasks| && p.tasks[s.phase.i].Wait? ==>
      && (s.phase.ts.finished ==> s.phase.ts.ctx != WaitSpec.Live)
      && (s.abort.None? && s.phase.ts.ctx == WaitSpec.Canceled ==> s.phase.ts.pending == [])
      && (s.phase.ts.finished && s.phase.ts.ctx == WaitSpec.Expired ==> NonePending(s.recs, p.tasks[s.phase.i].ids))
  }

  ghost predicate NonePending(recs: RecordMap, ids: seq<ObjMetadata>) {
    forall id :: id in ids && id in recs ==> recs[id].reconcile != ReconcilePending
  }

  /** Nothing whose wait task is over is unreconciled. */
  ghost predicate Quiet(p: Plan, s: State) {
    WaitQuiet(p, s) && forall id :: WaitOver(p, s, id) && id in s.recs ==> s.recs[id].reconcile != ReconcilePending
  }

  lemma StatusQuiet(p: Plan, s: State, t: State, id: ObjMetadata, rs: ResourceStatus)
    requires Core(p, s) && WaitQuiet(p, s) && StepStatus(p, s, id, rs) == Some(t) && !Late(s, StatusEvent(id, rs))
    ensures WaitQuiet(p, t)
  {
    hide WaitSpec.UpdatePending, WaitSpec.UpdateFailed, WaitSpec.UpdateReconciled, WaitSpec.SkippedBefore, NonePending;
    if s.abort.None? && s.phase.Running? && s.phase.ts.Waiting? {
      UpdatesKeepContext(WaitOf(s), p.tasks[s.phase.i].cond, t.cache, id);
    }
    hide Core;
  }

  /** The three update rules leave the context alone. */
  lemma UpdatesKeepContext(w: WaitSpec.Wait, cond: Condition, cache: Cache, id: ObjMetadata)
    ensures WaitSpec.UpdatePending(w, cond, cache, id).ctx == w.ctx
    ensures WaitSpec.UpdateFailed(w, cond, cache, id).ctx == w.ctx
    ensures WaitSpec.UpdateReconciled(w, cond, cache, id).ctx == w.ctx
  {
  }

  lemma StartQuiet(p: Plan, s: State, i: nat)
    requires i < |p.tasks|
    ensures WaitQuiet(p, NextTask(p, s, i))
  {
    if p.tasks[i].Wait? {
      WaitProofs.StartAllFrame(WaitSpec.Wait(s.recs, [], [], s.waits, WaitSpec.Live), p.tasks[i].cond, s.cache, p.tasks[i].ids);
    }
  }

  lemma GoroutineQuiet(p: Plan, s: State, t: State)
    requires Core(p, s) && WaitQuiet(p, s) && StepWaitGoroutine(p, s) == Some(t)
    ensures WaitQuiet(p, t)
  {
    CurrentWait(p, s);
    WaitProofs.TimeoutTracks(WaitOf(s), p.tasks[s.phase.i].ids, s.phase.ts.timedOut);
    hide Core, WaitSpec.SendTimeoutEvents, WaitProofs.Tracks;
  }

  /** Steps that leave a wait task's lists and records alone. */
  lemma OtherQuiet(p: Plan, s: State, l: Label, t: State)
    requires WaitQuiet(p, s) && Step(p, s, l) == Some(t)
    requires l.WatchError? || l.CtxDone? || l.Expire? || l.ApplyStep? || l.PruneStep? || l.InvStep?
    ensures WaitQuiet(p, t)
  {
    hide FilterObject, ApplyRecord, PruneOne, FinalRefs, DestroySuccessful, NonePending;
  }

  lemma StepWaitQuiet(p: Plan, s: State, l: Label, t: State)
    requires Core(p, s) && WaitQuiet(p, s) && Step(p, s, l) == Some(t) && !Late(s, l)
    ensures WaitQuiet(p, t)
  {
    hide Core, WaitQuiet, Late, StepStatus, StepWaitGoroutine, StepApply, StepPrune, StepInv, StepExpire;
    match l
    case StatusEvent(id, rs) => StatusQuiet(p, s, t, id, rs);
    case WaitGoroutine => GoroutineQuiet(p, s, t);
    case Sync => NextQuiet(p, s, t, 0);
    case TaskResult => NextQuiet(p, s.(groups := s.groups + [Finished(s.phase.i)]), t, s.phase.i + 1);
    case _ => OtherQuiet(p, s, l, t);
  }

  lemma NextQuiet(p: Plan, s: State, t: State, i: nat)
    requires t == NextTask(p, s, i) || t.phase.Returned?
    ensures WaitQuiet(p, t)
  {
    if i < |p.tasks| && t == NextTask(p, s, i) {
      StartQuiet(p, s, i);
    }
  }

  /** When a wait task's result is taken and the run goes on, none of its ids is unreconciled. */
  lemma WaitEndsReconciled(p: Plan, s: State, id: ObjMetadata)
    requires Core(p, s) && WaitQuiet(p, s) && s.abort.None?
    requires s.phase.Running? && s.phase.ts.Waiting? && s.phase.ts.finished
    requires id in p.tasks[s.phase.i].ids && id in s.recs
    ensures s.recs[id].reconcile != ReconcilePending
  {
    CurrentWait(p, s);
    assert WaitProofs.Agrees(WaitOf(s), s.phase.ts.timedOut, id);
  }

  /** An object newly past its wait task has just been waited for. */
  lemma NewlyOver(p: Plan, s: State, t: State, id: ObjMetadata)
    requires WellPlanned(p) && !p.dryRun && Core(p, s) && s.phase.Running? && t.phase.Running? && t.phase.i == s.phase.i + 1
    requires WaitOver(p, t, id) && !WaitOver(p, s, id)
    ensures p.tasks[s.phase.i].Wait? && id in p.tasks[s.phase.i].ids
  {
    var j, m :| Slot(p, j, m) && IdAt(p, j, m) == id && j + 1 < t.phase.i;
    assert j + 1 == s.phase.i;
    assert p.tasks[j + 1].Wait? && p.tasks[j + 1].ids == Ids(p.tasks[j].objs);
    assert Ids(p.tasks[j].objs)[m] == id;
  }

  lemma ResultKeys(p: Plan, s: State, t: State)
    requires Core(p, s) && StepResult(p, s) == Some(t)
    ensures t.recs.Keys == s.recs.Keys
  {
    RunSafety.OnlyReconcileChanges(p, s, TaskResult, t);
    hide Core, StepResult;
  }

  lemma ResultMoves(p: Plan, s: State, t: State)
    requires StepResult(p, s) == Some(t) && t.phase.Running?
    ensures s.phase.Running? && t.phase.i == s.phase.i + 1 && s.abort.None? && t.phase.i < |p.tasks|
  {
  }

  lemma AlreadyOver(p: Plan, s: State, t: State, id: ObjMetadata)
    requires WellPlanned(p) && Core(p, s) && Quiet(p, s) && Step(p, s, TaskResult) == Some(t)
    requires WaitOver(p, s, id) && id in s.recs
    ensures id in t.recs && t.recs[id].reconcile != ReconcilePending
  {
    assert s.recs[id].reconcile != ReconcilePending;
    hide WellPlanned, Core, Quiet, Step, WaitOver;
    StepFrozen(p, s, TaskResult, t, id);
  }

  lemma JustOver(p: Plan, s: State, t: State, id: ObjMetadata)
    requires WellPlanned(p) && !p.dryRun && Core(p, s) && Quiet(p, s) && StepResult(p, s) == Some(t) && t.phase.Running?
    requires s.phase.Running? && s.abort.None? && t.phase.i == s.phase.i + 1
    requires WaitOver(p, t, id) && !WaitOver(p, s, id) && id in s.recs
    ensures id in t.recs && t.recs[id].reconcile != ReconcilePending
  {
    hide WellPlanned, Core, StepResult, WaitOver, WaitQuiet;
    NewlyOver(p, s, t, id);
    CurrentShape(p, s);
    WaitEndsReconciled(p, s, id);
    NextFrame(p, s, t, id);
  }

  lemma ResultIsStep(p: Plan, s: State, t: State, id: ObjMetadata)
    requires StepResult(p, s) == Some(t) && WaitOver(p, t, id)
    ensures Step(p, s, TaskResult) == Some(t) && t.phase.Running?
  {
    hide StepResult;
  }

  lemma ResultQuiet(p: Plan, s: State, t: State, id: ObjMetadata)
    requires WellPlanned(p) && !p.dryRun && Core(p, s) && Quiet(p, s) && StepResult(p, s) == Some(t)
    requires WaitOver(p, t, id) && id in t.recs
    ensures t.recs[id].reconcile != ReconcilePending
  {
    hide *;
    ResultIsStep(p, s, t, id);
    ResultMoves(p, s, t);
    ResultKeys(p, s, t);
    if WaitOver(p, s, id) {
      AlreadyOver(p, s, t, id);
    } else {
      JustOver(p, s, t, id);
    }
  }

  lemma CurrentShape(p: Plan, s: State)
    requires Core(p, s) && s.phase.Running? && p.tasks[s.phase.i].Wait? && StepResult(p, s).Some?
    ensures s.phase.ts.Waiting? && s.phase.ts.finished
  {
  }

  /** Starting the next task leaves the ids just waited for alone. */
  lemma NextFrame(p: Plan, s: State, t: State, id: ObjMetadata)
    requires WellPlanned(p) && Core(p, s) && StepResult(p, s) == Some(t) && t.phase.Running?
    requires p.tasks[s.phase.i].Wait? && id in p.tasks[s.phase.i].ids && id in s.recs
    ensures id in t.recs && t.recs[id] == s.recs[id]
  {
    ResultMoves(p, s, t);
    assert !p.tasks[s.phase.i + 1].Wait?;
    assert s.phase.i < |p.tasks|;
    hide WellPlanned, Core, WaitSpec.Start, AppliedUIDs;
  }

  lemma StepQuiet(p: Plan, s: State, l: Label, t: State)
    requires WellPlanned(p) && !p.dryRun && Core(p, s) && Quiet(p, s) && Step(p, s, l) == Some(t) && !Late(s, l)
    ensures Quiet(p, t)
  {
    StepWaitQuiet(p, s, l, t);
    forall id | WaitOver(p, t, id) && id in t.recs ensures t.recs[id].reconcile != ReconcilePending {
      if l.TaskResult? {
        ResultQuiet(p, s, t, id);
      } else if !l.Sync? {
        RunSafety.NotStarted(p, s, l, t);
        RunSafety.CursorMoves(p, s, l, t);
        assert WaitOver(p, s, id);
        StepKeys(p, s, l, t);
        StepFrozen(p, s, l, t, id);
      } else {
        SyncStarts(p, s, t);
      }
    }
  }

  lemma SyncStarts(p: Plan, s: State, t: State)
    requires StepSync(p, s) == Some(t)
    ensures t.phase.Running? ==> t.phase.i == 0
  {
  }

  lemma StepKeys(p: Plan, s: State, l: Label, t: State)
    requires WellPlanned(p) && Core(p, s) && Step(p, s, l) == Some(t)
    ensures t.recs.Keys == s.recs.Keys
  {
    StepCore(p, s, l);
    hide WellPlanned, Step;
  }

  lemma {:induction false} ExecQuiet(p: Plan, stored: Option<set<ObjMetadata>>, labels: seq<Label>)
    requires WellPlanned(p) && !p.dryRun && Exec(p, Init(p, stored), labels).Some? && Punctual(p, stored, labels)
    ensures Quiet(p, Exec(p, Init(p, stored), labels).value)
  {
    if labels != [] {
      var front, l := labels[..|labels| - 1], labels[|labels| - 1];
      ExecQuiet(p, stored, front);
      ExecCore(p, stored, front);
      hide WellPlanned, Core, Quiet, Step, Late, Init;
      StepQuiet(p, Exec(p, Init(p, stored), front).value, l, Exec(p, Init(p, stored), labels).value);
    }
  }

  /** A related object of the same strategy is past its wait task. */
  lemma RelationWaitOver(p: Plan, s: State, b: ObjMetadata)
    requires WellPlanned(p) && !p.dryRun && Core(p, s)
    requires s.phase.Running? && s.phase.ts.Actuating? && Slot(p, s.phase.i, s.phase.ts.k)
    requires b in Related(p, StrategyOf(p.tasks[s.phase.i]), IdAt(p, s.phase.i, s.phase.ts.k))
    requires b in s.recs && s.recs[b].strategy == StrategyOf(p.tasks[s.phase.i])
    ensures WaitOver(p, s, b)
  {
    var j, m :| Slot(p, j, m) && IdAt(p, j, m) == b;
    assert j < s.phase.i && p.tasks[j + 1].Wait?;
  }

  /** In a run without late status updates no object ever fails with "reconcile pending". */
  lemma PunctualNeverFatal(p: Plan, stored: Option<set<ObjMetadata>>, labels: seq<Label>, s: State, strategy: Strategy)
    requires WellPlanned(p) && !p.dryRun && Exec(p, Init(p, stored), labels) == Some(s) && Punctual(p, stored, labels)
    requires strategy == ApplyStrategy || strategy == DeleteStrategy
    requires AtObject(p, s, strategy)
    ensures FilterObject(p, s.recs, strategy, CurrentObject(p, s, strategy).id) != Fatal(PrematureReconcile)
  {
    ExecQuiet(p, stored, labels);
    ExecCore(p, stored, labels);
    hide WellPlanned, Core, Punctual;
    var id := CurrentObject(p, s, strategy).id;
    assert Slot(p, s.phase.i, s.phase.ts.k) && IdAt(p, s.phase.i, s.phase.ts.k) == id;
    var rels := Related(p, strategy, id);
    PrematureReconcileIff(s.recs, p.invalid, strategy, rels);
    if FilterObject(p, s.recs, strategy, id) == Fatal(PrematureReconcile) {
      var k :| 0 <= k < |rels| && Unreconciled(s.recs, p.invalid, strategy, rels[k]);
      RelationWaitOver(p, s, rels[k]);
    }
  }
}
