/** What every step of a run keeps: the records follow the queue, and nothing is actuated
    before everything it is related to has settled. */
module RunInvariant {
  import opened Base
  import opened Records
  import opened Objects
  import opened DependencyFilter
  import opened Actuate
  import opened Engine
  import opened PlanSpec
  import WaitSpec
  import WaitProofs

  /** The m-th object of the j-th task has been dealt with. */
  ghost predicate Done(s: State, j: int, m: int) {
    && s.phase.Running?
    && (j < s.phase.i || (j == s.phase.i && (s.phase.ts.Actuating? ==> m < s.phase.ts.k)))
  }

  /** The task state fits the task. */
  ghost predicate Shape(p: Plan, s: State) {
    s.phase.Running? ==>
      && s.phase.i < |p.tasks|
      && match p.tasks[s.phase.i]
        case Wait(_, _, _) => s.phase.ts.Waiting?
        case Apply(objs) => s.phase.ts.Actuating? && s.phase.ts.k <= |objs|
        case Prune(objs) => s.phase.ts.Actuating? && s.phase.ts.k <= |objs|
        case _ => s.phase.ts.Writing? || s.phase.ts.Reporting?
  }

  ghost predicate Registered(p: Plan, recs: RecordMap) {
    recs.Keys == p.planned.Keys && forall id :: id in recs ==> recs[id].strategy == p.planned[id]
  }

  /** An object is pending exactly until its turn. */
  ghost predicate Progress(p: Plan, s: State) {
    !s.phase.Returned? ==>
      forall j, m :: Slot(p, j, m) && IdAt(p, j, m) in s.recs ==>
        (s.recs[IdAt(p, j, m)].actuation == Pending <==> !Done(s, j, m))
  }

  /** Whatever succeeded, its relations have settled. */
  ghost predicate Closed(p: Plan, recs: RecordMap) {
    forall x :: x in recs && recs[x].actuation == Succeeded ==>
      forall y :: y in Related(p, recs[x].strategy, x) ==> Settled(recs, recs[x].strategy, y)
  }

  ghost function WaitOf(s: State): WaitSpec.Wait
    requires s.phase.Running? && s.phase.ts.Waiting?
  {
    WaitSpec.Wait(s.recs, s.phase.ts.pending, s.phase.ts.failing, s.waits, s.phase.ts.ctx)
  }

  /** A current wait task is in good order. */
  ghost predicate WaitOk(p: Plan, s: State) {
    s.phase.Running? && s.phase.ts.Waiting? && s.phase.i < |p.tasks| && p.tasks[s.phase.i].Wait? ==>
      WaitProofs.Tracks(WaitOf(s), p.tasks[s.phase.i].ids, s.phase.ts.timedOut)
  }

  ghost predicate Core(p: Plan, s: State) {
    Shape(p, s) && Registered(p, s.recs) && Progress(p, s) && (!p.dryRun ==> Closed(p, s.recs)) && WaitOk(p, s)
  }

  lemma InitCore(p: Plan, stored: Option<set<ObjMetadata>>)
    requires WellPlanned(p)
    ensures Core(p, Init(p, stored))
  {
  }

  // ---------- Actuation ----------

  /** Giving a pending object its final record keeps the relation closed. */
  lemma ActuateKeepsClosed(p: Plan, recs: RecordMap, z: ObjMetadata, r: Record)
    requires Closed(p, recs) && z in recs && recs[z].actuation == Pending
    requires r.strategy == recs[z].strategy
    requires r.actuation == Succeeded ==> forall y :: y in Related(p, r.strategy, z) ==> Settled(recs, r.strategy, y)
    ensures Closed(p, recs[z := r])
  {
    var recs' := recs[z := r];
    forall x, y | x in recs' && recs'[x].actuation == Succeeded && y in Related(p, recs'[x].strategy, x)
      ensures Settled(recs', recs'[x].strategy, y)
    {
      assert Settled(recs, recs'[x].strategy, y);
    }
  }

  /** The cursor moves past the object just recorded. */
  lemma ActuateKeepsProgress(p: Plan, s: State, t: State, r: Record)
    requires SlotsRegistered(p) && Progress(p, s)
    requires s.phase.Running? && s.phase.ts.Actuating? && Slot(p, s.phase.i, s.phase.ts.k)
    requires t.phase == NextObject(s)
    requires t.recs == s.recs[IdAt(p, s.phase.i, s.phase.ts.k) := r]
    requires r.actuation != Pending
    ensures Progress(p, t)
  {
    forall j, m | Slot(p, j, m) && IdAt(p, j, m) in t.recs
      ensures t.recs[IdAt(p, j, m)].actuation == Pending <==> !Done(t, j, m)
    {
      if IdAt(p, j, m) != IdAt(p, s.phase.i, s.phase.ts.k) {
        assert Done(t, j, m) <==> Done(s, j, m);
      }
    }
  }

  lemma CurrentPending(p: Plan, s: State)
    requires WellPlanned(p) && Core(p, s)
    requires s.phase.Running? && s.phase.ts.Actuating? && Slot(p, s.phase.i, s.phase.ts.k)
    ensures var id := IdAt(p, s.phase.i, s.phase.ts.k);
      id in s.recs && s.recs[id].actuation == Pending && s.recs[id].strategy == StrategyOf(p.tasks[s.phase.i])
  {
    assert !Done(s, s.phase.i, s.phase.ts.k);
  }

  lemma ActuateFits(p: Plan, s: State, t: State, r: Record)
    requires Shape(p, s) && Registered(p, s.recs)
    requires s.phase.Running? && s.phase.ts.Actuating? && Slot(p, s.phase.i, s.phase.ts.k)
    requires IdAt(p, s.phase.i, s.phase.ts.k) in s.recs
    requires t.phase == NextObject(s) && t.recs == s.recs[IdAt(p, s.phase.i, s.phase.ts.k) := r]
    requires r.strategy == s.recs[IdAt(p, s.phase.i, s.phase.ts.k)].strategy
    ensures Shape(p, t) && Registered(p, t.recs) && WaitOk(p, t)
  {
  }

  /** The current object gets its record; it succeeds only if the dependency filter let it pass. */
  lemma ActuateCore(p: Plan, s: State, t: State, r: Record)
    requires WellPlanned(p) && Core(p, s)
    requires s.phase.Running? && s.phase.ts.Actuating? && Slot(p, s.phase.i, s.phase.ts.k)
    requires t.phase == NextObject(s) && t.recs == s.recs[IdAt(p, s.phase.i, s.phase.ts.k) := r]
    requires r.strategy == StrategyOf(p.tasks[s.phase.i]) && r.actuation != Pending
    requires r.actuation == Succeeded ==> FilterObject(p, s.recs, r.strategy, IdAt(p, s.phase.i, s.phase.ts.k)) == Pass
    ensures Core(p, t)
  {
    var id := IdAt(p, s.phase.i, s.phase.ts.k);
    CurrentPending(p, s);
    assert Shape(p, s) && Registered(p, s.recs) && Progress(p, s) && SlotsRegistered(p);
    assert !p.dryRun ==> Closed(p, s.recs);
    ActuateKeepsProgress(p, s, t, r);
    ActuateFits(p, s, t, r);
    hide WellPlanned, Progress, Shape, Registered, WaitOk, Closed;
    if !p.dryRun {
      PassIffSettled(s.recs, p.invalid, r.strategy, Related(p, r.strategy, id));
      ActuateKeepsClosed(p, s.recs, id, r);
    }
  }

  lemma ApplyCore(p: Plan, s: State, env: ApplyEnv)
    requires WellPlanned(p) && Core(p, s) && AtObject(p, s, ApplyStrategy)
    ensures Core(p, StepApply(p, s, env).value)
  {
    hide Core, WellPlanned, FilterObject;
    var id := CurrentObject(p, s, ApplyStrategy).id;
    assert Slot(p, s.phase.i, s.phase.ts.k) && IdAt(p, s.phase.i, s.phase.ts.k) == id;
    ActuateCore(p, s, StepApply(p, s, env).value, ApplyRecord(env, FilterObject(p, s.recs, ApplyStrategy, id)));
  }

  lemma PruneRecord(env: PruneEnv, verdict: Verdict, uid: string, currentUIDs: set<string>, dryRun: bool)
    ensures var e := PruneOne(env, verdict, uid, currentUIDs, dryRun);
      && e.record.strategy == DeleteStrategy && e.record.actuation != Pending
      && (e.record.actuation == Succeeded ==> verdict == Pass)
  {
  }

  lemma PruneCore(p: Plan, s: State, t: State, env: PruneEnv)
    requires WellPlanned(p) && Core(p, s) && AtObject(p, s, DeleteStrategy)
    requires StepPrune(p, s, env) == Some(t)
    ensures Core(p, t)
  {
    var obj := CurrentObject(p, s, DeleteStrategy);
    var verdict := FilterObject(p, s.recs, DeleteStrategy, obj.id);
    var r := PruneOne(env, verdict, obj.uid, s.phase.ts.currentUIDs, p.dryRun).record;
    PruneRecord(env, verdict, obj.uid, s.phase.ts.currentUIDs, p.dryRun);
    assert Slot(p, s.phase.i, s.phase.ts.k);
    assert t.recs == s.recs[obj.id := r];
    ActuateCore(p, s, t, r);
  }

  // ---------- Waiting ----------

  /** The ids of a wait task are those of the task before it. */
  lemma WaitSlot(p: Plan, i: nat, y: ObjMetadata) returns (m: nat)
    requires WaitsFollow(p) && i < |p.tasks| && p.tasks[i].Wait? && y in p.tasks[i].ids
    ensures i > 0 && Slot(p, i - 1, m) && IdAt(p, i - 1, m) == y
  {
    m :| m < |p.tasks[i].ids| && p.tasks[i].ids[m] == y;
  }

  lemma WaitIdsDistinct(p: Plan, i: nat)
    requires WellPlanned(p) && i < |p.tasks| && p.tasks[i].Wait?
    ensures NoDup(p.tasks[i].ids)
  {
    var ids := p.tasks[i].ids;
    forall a, b | 0 <= a < b < |ids| ensures ids[a] != ids[b] {
      assert Slot(p, i - 1, a) && Slot(p, i - 1, b);
      assert IdAt(p, i - 1, a) == ids[a] && IdAt(p, i - 1, b) == ids[b];
    }
  }

  /** Whoever rests on an object that is still waited for has not had its turn. */
  lemma RestsOnWaiting(p: Plan, s: State, i: nat, x: ObjMetadata, y: ObjMetadata)
    requires WellPlanned(p) && Registered(p, s.recs) && Progress(p, s)
    requires s.phase.Running? && i < |p.tasks| && p.tasks[i].Wait? && y in p.tasks[i].ids
    requires i == s.phase.i || i == s.phase.i + 1
    requires x in s.recs && y in s.recs && s.recs[x].strategy == s.recs[y].strategy
    requires y in Related(p, s.recs[x].strategy, x)
    ensures s.recs[x].actuation == Pending
  {
    var m := WaitSlot(p, i, y);
    var j', m' :| Slot(p, j', m') && IdAt(p, j', m') == x;
    assert StrategyOf(p.tasks[j']) == StrategyOf(p.tasks[i - 1]);
    assert i < j';
    assert !Done(s, j', m');
  }

  lemma WaitKeepsClosed(p: Plan, s: State, i: nat, recs: RecordMap)
    requires WellPlanned(p) && Registered(p, s.recs) && Progress(p, s) && Closed(p, s.recs)
    requires s.phase.Running? && s.phase.i <= i < |p.tasks| && p.tasks[i].Wait?
    requires i == s.phase.i || i == s.phase.i + 1
    requires WaitProofs.OnlyReconcile(s.recs, recs, p.tasks[i].ids)
    ensures Closed(p, recs)
  {
    forall x, y | x in recs && recs[x].actuation == Succeeded && y in Related(p, recs[x].strategy, x)
      ensures Settled(recs, recs[x].strategy, y)
    {
      assert Settled(s.recs, s.recs[x].strategy, y);
      assert y !in p.tasks[i].ids by {
        if y in p.tasks[i].ids {
          RestsOnWaiting(p, s, i, x, y);
        }
      }
    }
  }

  /** A step of the current wait task: only reconcile statuses of its own ids change. */
  lemma WaitStepCore(p: Plan, s: State, t: State)
    requires WellPlanned(p) && Core(p, s)
    requires s.phase.Running? && s.phase.ts.Waiting?
    requires t.phase.Running? && t.phase.i == s.phase.i && t.phase.ts.Waiting?
    requires WaitProofs.OnlyReconcile(s.recs, t.recs, p.tasks[s.phase.i].ids)
    requires WaitProofs.Tracks(WaitOf(t), p.tasks[s.phase.i].ids, t.phase.ts.timedOut)
    ensures Core(p, t)
  {
    assert Progress(p, t) by {
      forall j, m | Slot(p, j, m) && IdAt(p, j, m) in t.recs
        ensures t.recs[IdAt(p, j, m)].actuation == Pending <==> !Done(t, j, m)
      {
        assert Done(s, j, m) <==> Done(t, j, m);
      }
    }
    if !p.dryRun {
      WaitKeepsClosed(p, s, s.phase.i, t.recs);
    }
  }

  /** Steps that leave the records and the cursor alone. */
  lemma IdleStepCore(p: Plan, s: State, t: State)
    requires Core(p, s) && Shape(p, t) && WaitOk(p, t)
    requires t.recs == s.recs
    requires t.phase.Returned? || (t.phase.Idle? && s.phase.Idle?)
      || (s.phase.Running? && t.phase.Running? && t.phase.i == s.phase.i
          && (if s.phase.ts.Actuating? then t.phase.ts == s.phase.ts else !t.phase.ts.Actuating?))
    ensures Core(p, t)
  {
    if !t.phase.Returned? {
      forall j, m | Slot(p, j, m) && IdAt(p, j, m) in t.recs
        ensures t.recs[IdAt(p, j, m)].actuation == Pending <==> !Done(t, j, m)
      {
        assert Done(s, j, m) <==> Done(t, j, m);
      }
    }
  }

  // ---------- Moving on ----------

  /** Everything before task i, and nothing from it on, has been dealt with. */
  ghost predicate Before(p: Plan, s: State, i: nat) {
    forall j, m :: Slot(p, j, m) && IdAt(p, j, m) in s.recs ==>
      (s.recs[IdAt(p, j, m)].actuation == Pending <==> i <= j)
  }

  lemma StartProgress(p: Plan, s: State, i: nat)
    requires i < |p.tasks| && Before(p, s, i)
    requires NextTask(p, s, i).recs.Keys == s.recs.Keys
    requires forall id :: id in s.recs ==> NextTask(p, s, i).recs[id].actuation == s.recs[id].actuation
    ensures Progress(p, NextTask(p, s, i))
  {
    var t := NextTask(p, s, i);
    forall j, m | Slot(p, j, m) && IdAt(p, j, m) in t.recs
      ensures t.recs[IdAt(p, j, m)].actuation == Pending <==> !Done(t, j, m)
    {
      assert Done(t, j, m) <==> j < i;
    }
  }

  lemma StartWaitCore(p: Plan, s: State, i: nat)
    requires WellPlanned(p) && i < |p.tasks| && p.tasks[i].Wait?
    requires Registered(p, s.recs) && Before(p, s, i) && (!p.dryRun ==> Closed(p, s.recs))
    requires s.phase.Running? && i == s.phase.i + 1 && Progress(p, s)
    ensures Core(p, NextTask(p, s, i))
  {
    WaitIdsDistinct(p, i);
    var w := WaitSpec.Wait(s.recs, [], [], s.waits, WaitSpec.Live);
    WaitProofs.StartTracks(w, p.tasks[i].cond, s.cache, p.tasks[i].ids);
    hide WellPlanned, WaitSpec.Start, WaitProofs.Tracks, Closed;
    StartProgress(p, s, i);
    hide Progress, Before;
    if !p.dryRun {
      WaitKeepsClosed(p, s, i, NextTask(p, s, i).recs);
    }
  }

  lemma StartCore(p: Plan, s: State, i: nat)
    requires i < |p.tasks| && !p.tasks[i].Wait?
    requires Registered(p, s.recs) && Before(p, s, i) && (!p.dryRun ==> Closed(p, s.recs))
    ensures Core(p, NextTask(p, s, i))
  {
    StartProgress(p, s, i);
  }

  lemma SyncCore(p: Plan, s: State)
    requires WellPlanned(p) && Core(p, s) && s.phase == Idle
    ensures Core(p, StepSync(p, s).value)
  {
    assert Before(p, s, 0) by {
      forall j, m | Slot(p, j, m) && IdAt(p, j, m) in s.recs
        ensures s.recs[IdAt(p, j, m)].actuation == Pending <==> 0 <= j
      {
        assert !Done(s, j, m);
      }
    }
    StartCore(p, s, 0);
  }

  lemma ResultCore(p: Plan, s: State)
    requires WellPlanned(p) && Core(p, s) && StepResult(p, s).Some?
    ensures Core(p, StepResult(p, s).value)
  {
    hide WellPlanned;
    var t := StepResult(p, s).value;
    if t.phase.Running? {
      var s1 := s.(groups := s.groups + [Finished(s.phase.i)]);
      var i := s.phase.i + 1;
      assert Before(p, s1, i) by {
        forall j, m | Slot(p, j, m) && IdAt(p, j, m) in s.recs
          ensures s.recs[IdAt(p, j, m)].actuation == Pending <==> i <= j
        {
          assert Done(s, j, m) <==> j < i;
        }
      }
      assert Progress(p, s1) by {
        IdleStepCore(p, s, s1);
      }
      if p.tasks[i].Wait? {
        StartWaitCore(p, s1, i);
      } else {
        StartCore(p, s1, i);
      }
    } else {
      IdleStepCore(p, s, t);
    }
  }

  // ---------- The remaining labels ----------

  lemma StatusCore(p: Plan, s: State, id: ObjMetadata, rs: ResourceStatus)
    requires WellPlanned(p) && Core(p, s) && StepStatus(p, s, id, rs).Some?
    ensures Core(p, StepStatus(p, s, id, rs).value)
  {
    var t := StepStatus(p, s, id, rs).value;
    if s.abort.None? && s.phase.Running? && p.tasks[s.phase.i].Wait? && id in p.tasks[s.phase.i].ids {
      var task := p.tasks[s.phase.i];
      WaitProofs.StatusUpdateTracks(WaitOf(s), task.ids, task.cond, t.cache, id, s.phase.ts.timedOut);
      WaitProofs.StatusUpdateFrame(WaitOf(s), task.ids, task.cond, t.cache, id);
      WaitStepCore(p, s, t);
    } else {
      IdleStepCore(p, s, t);
    }
  }

  /** A change of the wait context alone is invisible to the wait invariant. */
  lemma ContextKeepsTracks(w: WaitSpec.Wait, ids: seq<ObjMetadata>, timedOut: bool, ctx: WaitSpec.Ctx)
    requires WaitProofs.Tracks(w, ids, timedOut)
    ensures WaitProofs.Tracks(w.(ctx := ctx), ids, timedOut)
  {
    forall x | x in ids ensures WaitProofs.Agrees(w.(ctx := ctx), timedOut, x) {
      assert WaitProofs.Agrees(w, timedOut, x);
    }
  }

  lemma AbortCore(p: Plan, s: State, reason: AbortReason)
    requires Core(p, s) && StepAbort(s, reason).Some?
    ensures Core(p, StepAbort(s, reason).value)
  {
    var t := StepAbort(s, reason).value;
    if s.phase.Running? && s.phase.ts.Waiting? {
      ContextKeepsTracks(WaitOf(s), p.tasks[s.phase.i].ids, s.phase.ts.timedOut, t.phase.ts.ctx);
    }
    IdleStepCore(p, s, t);
  }

  lemma ExpireCore(p: Plan, s: State)
    requires Core(p, s) && StepExpire(p, s).Some?
    ensures Core(p, StepExpire(p, s).value)
  {
    var t := StepExpire(p, s).value;
    ContextKeepsTracks(WaitOf(s), p.tasks[s.phase.i].ids, s.phase.ts.timedOut, t.phase.ts.ctx);
    IdleStepCore(p, s, t);
  }

  lemma WaitGoroutineCore(p: Plan, s: State)
    requires WellPlanned(p) && Core(p, s) && StepWaitGoroutine(p, s).Some?
    ensures Core(p, StepWaitGoroutine(p, s).value)
  {
    var t := StepWaitGoroutine(p, s).value;
    if s.phase.ts.ctx == WaitSpec.Canceled {
      IdleStepCore(p, s, t);
    } else {
      WaitProofs.TimeoutTracks(WaitOf(s), p.tasks[s.phase.i].ids, s.phase.ts.timedOut);
      WaitProofs.TimeoutAllFacts(WaitOf(s), s.phase.ts.pending);
      ContextKeepsTracks(WaitSpec.SendTimeoutEvents(WaitOf(s)), p.tasks[s.phase.i].ids, true, s.phase.ts.ctx);
      WaitStepCore(p, s, t);
    }
  }

  /** When the steps are enabled. */
  lemma IdleOnly(p: Plan, s: State)
    ensures StepSync(p, s).Some? ==> s.phase == Idle
  {
  }

  lemma AtObjectOnly(p: Plan, s: State)
    ensures forall env :: StepApply(p, s, env).Some? ==> AtObject(p, s, ApplyStrategy)
    ensures forall env :: StepPrune(p, s, env).Some? ==> AtObject(p, s, DeleteStrategy)
  {
    hide FilterObject, PruneOne, ApplyRecord;
  }

  lemma InvCore(p: Plan, s: State, env: InvEnv)
    requires Core(p, s) && StepInv(p, s, env).Some?
    ensures Core(p, StepInv(p, s, env).value)
  {
    hide FinalRefs, DestroySuccessful;
    IdleStepCore(p, s, StepInv(p, s, env).value);
  }

  lemma StepCore(p: Plan, s: State, l: Label)
    requires WellPlanned(p) && Core(p, s) && Step(p, s, l).Some?
    ensures Core(p, Step(p, s, l).value)
  {
    assert Shape(p, s);
    hide WellPlanned, Core, Shape, StepStatus, StepSync, StepApply, StepPrune, StepInv, StepExpire, StepWaitGoroutine, StepResult, StepAbort;
    match l
    case Sync =>
      IdleOnly(p, s);
      SyncCore(p, s);
    case StatusEvent(id, rs) => StatusCore(p, s, id, rs);
    case WatchError => if s.abort.None? { AbortCore(p, s, WatchFailed); }
    case CtxDone => AbortCore(p, s, ContextDone);
    case ApplyStep(env) =>
      AtObjectOnly(p, s);
      ApplyCore(p, s, env);
    case PruneStep(env) =>
      AtObjectOnly(p, s);
      PruneCore(p, s, StepPrune(p, s, env).value, env);
    case InvStep(env) => InvCore(p, s, env);
    case Expire => ExpireCore(p, s);
    case WaitGoroutine => WaitGoroutineCore(p, s);
    case TaskResult => ResultCore(p, s);
  }

  lemma {:induction false} ExecCore(p: Plan, stored: Option<set<ObjMetadata>>, labels: seq<Label>)
    requires WellPlanned(p) && Exec(p, Init(p, stored), labels).Some?
    ensures Core(p, Exec(p, Init(p, stored), labels).value)
  {
    if labels == [] {
      InitCore(p, stored);
    } else {
      var before := labels[..|labels| - 1];
      ExecCore(p, stored, before);
      StepCore(p, Exec(p, Init(p, stored), before).value, labels[|labels| - 1]);
    }
  }

  /** The invariant holds in every reachable state. */
  lemma ReachableCore(p: Plan, stored: Option<set<ObjMetadata>>, s: State)
    requires WellPlanned(p) && Reachable(p, stored, s)
    ensures Core(p, s)
  {
    var labels :| Exec(p, Init(p, stored), labels) == Some(s);
    ExecCore(p, stored, labels);
  }
}
